# A Dafny model of the AutomationTool core

AutomationTool drives a Chrome browser from plain-English test steps ("Navigate
to 'https://…'", "Click on login button", "Enter 'laptop' in the search box").
For each step it does the following:

- It asks a language model for an action plan. When the model fails, it falls
  back to a rule-based planner.
- It asks the model for locators for the current page's interactive elements.
- It searches the page with a cascade of locators and has the model verify the
  element it found. It retries up to three times and falls back to fixed
  XPaths for login controls.
- It types or clicks and appends the action to a log.

From that log it later writes a Selenium or Playwright test script.

The model keeps:

- the deterministic logic of each of these stages;
- the retry controller, as an imperative loop proved against a recursive
  specification;
- the append-only log, as a field of a class.

The browser, the language model, the JSON decoder and the clock become
parameters (oracles). A page may change between attempts, so it is indexed by
attempt number. The snapshot-and-locator request is indexed by how many such
requests the step has already made.

Modules, in dependency order:

- `Wrappers`, `Errors`, `Assistant`, `Browser`: Option/Result, the exception
  classes, a language-model reply, and what the core sees of an element and
  a page.
- `Text`: the Python and JavaScript string operations the core relies on.
  Case mapping and `isalnum()` are ASCII; the whitespace sets of
  `str.strip()`/`split()` and of `String.prototype.trim()` are written out.
- `ElementFinder`, `LegacyElementFinder`: the locator cascades of
  `src/element_finder.py` and of the older `element_finder.py`.
- `PageScript`: the JavaScript that `get_page_elements` runs in the page:
  `generateXPath`, `getFullXPath` and `getPrecedingText`.
- `StepPlanner`: `fallback_step_analysis` and the fence stripping and
  fallback of `analyze_step`.
- `Relevance`: `filter_relevant_elements` and the `context_length_exceeded`
  fallback of `analyze_elements_for_action`.
- `Verification`: the accept rule of `verify_element_match`.
- `Actions`: the recorded-action entry and the dict lookups made on it.
- `ScriptGenerator`: `src/script_generator.py`.
- `Automation`: the `WebAutomationTool` class, with `execute_step`'s
  retry controller, `try_alternative_strategies`, `get_element_info`,
  `record_action` and `generate_script`.
- `Utils`: `sanitize_filename`.

Behaviour of the code worth knowing, which the model follows:

- The cascade tries the locators in the order of the caller's dict, not in a
  fixed id > xpath > css > … priority.
- The action plan is not regenerated on a retry; only the locators are.
- A step that fails three times without an exception captures the page four
  times: once before the loop and once after every failed attempt, including
  the last. `Automation.ExhaustedRetriesRequestEachTime` proves this.
- An attempt that raises does not refresh anything. An attempt whose reply has
  no "locators" object raises at once, so the same reply is read again on the
  next attempt.
- The locators recorded with an action are the model's reply, even when the
  login fallback XPaths found the element.
- Whether an input is submitted with RETURN depends on the words
  "search"/"submit"/"enter" in the step text, not on the plan's hints.
- The element summary recorded with an action has no "value" entry. So every
  generated input block types the empty string
  (`Automation.RecordedInputTypesNothing`).
- The URL of a navigation step removes only the lower-case words
  "navigate to". The planner, though, recognises them in any case. So for
  "Navigate to 'x'" the URL keeps the verb (`Automation.NavigateUrlIsCaseSensitive`).

## Model

| member | source | states |
|---|---|---|
| ElementFinder.FirstResolvedIsFirstMatch | src/element_finder.py:30-67 | The cascade finds an element iff some entry is tried and resolves; it then returns the element of the first such entry, in map order. |
| ElementFinder.UntriedEntriesMakeNoLookup | src/element_finder.py:30-62 | Entries with a blank value or an unrecognised type start no wait: two pages that agree on the tried entries give the same result. |
| ElementFinder.AllBlankFindsNothing | src/element_finder.py:32-33 | A map whose values are all empty finds nothing. |
| ElementFinder.Cascade | src/element_finder.py:30-67 | The shared loop: it follows the first-match specification for any condition and strategy table. |
| ElementFinder.FindElementByLocators | src/element_finder.py:19-67 | The first entry, among seven recognised types, whose presence wait succeeds. |
| ElementFinder.FindClickableElement | src/element_finder.py:69-101 | The same cascade under the clickable condition; only id, xpath and css are recognised. |
| ElementFinder.FindVisibleElement | src/element_finder.py:103-135 | The same cascade under the visible condition; only id, xpath and css are recognised. |
| ElementFinder.WaitForElementPresence | src/element_finder.py:137-148 | True iff some entry resolves under presence. |
| ElementFinder.WaitForElementClickable | src/element_finder.py:150-161 | True iff some entry resolves under clickability. |
| ElementFinder.WaitForElementVisible | src/element_finder.py:163-174 | True iff some entry resolves under visibility. |
| LegacyElementFinder.FindElementByLocators | element_finder.py:12-41 | The first of id/xpath/css entries whose wait succeeds, with blanks not skipped; None when all fail. |
| LegacyElementFinder.BlankValueIsLookedUp | element_finder.py:23-36 | Here an empty id is handed to the wait and can match; the newer finder skips it. |
| PageScript.CountTag | src/web_automation_tool.py:140-148 | The count of same-tag element siblings never exceeds the sibling count. |
| PageScript.SiblingIndex | src/web_automation_tool.py:139-148 | The loop finds the element iff its position is among the siblings, and then returns the number of same-tag elements before it. |
| PageScript.GetFullXPath | src/web_automation_tool.py:133-149 | The recursive method follows the structural-path specification: /HTML[1], /HTML[1]/BODY[1], else parent/TAG[n]. It returns None where the script yields nothing: an element that is not among its parent's children gives `undefined`. A detached element makes the script throw, and `get_page_elements` then falls back to `{}`. |
| PageScript.FullXPathIsRooted | src/web_automation_tool.py:133-149 | Every structural path starts with /HTML[1]. |
| PageScript.FullXPath | src/web_automation_tool.py:133-149 | The structural path of an ancestry chain, the specification GetFullXPath is proved against. |
| PageScript.SiblingsGetDistinctPaths | src/web_automation_tool.py:139-146 | Two same-tag siblings at different indexes get different paths. |
| PageScript.GenerateXPath | src/web_automation_tool.py:108-131 | The method, with its predicate pushes, follows the rule priority id > aria-label > placeholder > trimmed text > type/name/class predicates > structural path. |
| PageScript.XPathFor | src/web_automation_tool.py:108-131 | The XPath of the first applicable rule, the specification GenerateXPath is proved against. |
| PageScript.XPathRecordsItsRule | src/web_automation_tool.py:108-131 | The generated XPath shows which rule produced it; for single-attribute rules it quotes exactly that attribute's value. |
| PageScript.PredicateBody | src/web_automation_tool.py:124-129 | A predicate path starts with a type, name or class predicate. |
| PageScript.GetPrecedingText | src/web_automation_tool.py:100-106 | The backwards walk over blank text nodes follows its specification. |
| PageScript.PrecedingTextIsNearest | src/web_automation_tool.py:100-106 | If the nearest earlier non-blank sibling is a text node past only blank text nodes, its trimmed text is returned. |
| PageScript.PrecedingTextHasSource | src/web_automation_tool.py:100-106 | A non-empty result always comes from such a text node. |
| PageScript.NearestPastBlank | src/web_automation_tool.py:102-104 | Blank text nodes after the nearest text do not change which text is nearest. |
| StepPlanner.FallbackStepAnalysis | src/web_automation_tool.py:300-373 | Checks in order on the lowered step: the "navigate to" prefix (wait for complete), then the "click" prefix, then enter/type/input (input with the quoted value); anything else clicks. It is total. |
| StepPlanner.ClickPlanTargets | src/web_automation_tool.py:323-337 | A click plan targets the step without "click", "on" and "the", stripped; the default plan targets the whole lowered step. |
| StepPlanner.ClickTarget | src/web_automation_tool.py:324 | The click target: the lowered step without "click", "on" and "the", stripped (stated by ClickPlanTargets). |
| StepPlanner.FallbackIgnoresCase | src/web_automation_tool.py:304 | The fallback plan depends only on the lowered step. |
| StepPlanner.FirstQuoted | src/web_automation_tool.py:343-344 | The extracted value never contains a quote. |
| StepPlanner.FirstQuotedIsFirstSegment | src/web_automation_tool.py:343-344 | The value is the text of the first '…' segment. |
| StepPlanner.FirstQuotedWithoutPair | src/web_automation_tool.py:344 | Without a pair of quotes the value is "". |
| StepPlanner.NavigateStepIsNavigation | src/web_automation_tool.py:307-320 | Any step starting with "navigate to" plans a navigation. |
| StepPlanner.EnterStepTypesQuotedValue | src/web_automation_tool.py:340-358 | "Enter '<v>' …" plans typing the lowered v. |
| StepPlanner.NoFenceRemains | src/web_automation_tool.py:287 | No code fence is left once every fence is removed. |
| StepPlanner.StripFences | src/web_automation_tool.py:285-287 | The reply stripped, without "```json" and "```" markers, stripped again (StripFencesRemovesFences states that no fence is left). |
| StepPlanner.StripFencesRemovesFences | src/web_automation_tool.py:285-287 | The cleaned reply has no code fence left. |
| StepPlanner.AnalyzeStep | src/web_automation_tool.py:247-298 | A service failure gives the fallback plan. A reply whose fence-stripped text decodes gives exactly the decoded plan. |
| StepPlanner.UndecodableReplyFallsBack | src/web_automation_tool.py:289-294 | A reply that does not decode gives exactly the fallback plan. |
| Relevance.Extend | src/web_automation_tool.py:171 | Appending to one category's list leaves the other two as they were. |
| Relevance.Terms | src/web_automation_tool.py:165 | The key terms: the lowered step without "click on", "enter", "type", "in the" and "field", split on whitespace. |
| Relevance.Copies | src/web_automation_tool.py:170-177 | An element is added at most three times, once per matching source. |
| Relevance.FilterRelevantElements | src/web_automation_tool.py:159-179 | The nested loop follows the specification: every category, in input order, keeps its matching elements once per matching source. |
| Relevance.AppendMatches | src/web_automation_tool.py:169-177 | One element's three checks append its copies to its own category. |
| Relevance.AppendIf | src/web_automation_tool.py:170-171 | One guarded append adds the element to its own category exactly when the guard holds. |
| Relevance.SelectedAppend | src/web_automation_tool.py:168-177 | Selection distributes over concatenation, so input order is kept. |
| Relevance.SelectedFromInput | src/web_automation_tool.py:168-177 | Every selected element comes from the input list, and at most three per input element. |
| Relevance.SelectedKeepsMatching | src/web_automation_tool.py:170-171 | An element whose serialized text matches a term is selected. |
| Relevance.NoTermsSelectNothing | src/web_automation_tool.py:166-177 | A step without terms selects nothing. |
| Relevance.BucketsKeepCategories | src/web_automation_tool.py:162-179 | Output list k holds exactly the selection from input list k. |
| Relevance.Recover | src/web_automation_tool.py:220-245 | Only a context_length_exceeded error with a "search" or "first link" step is recovered, with the Amazon search box or the first result. Everything else is re-raised. |
| Relevance.SearchBoxChoice | src/web_automation_tool.py:224-233 | The Amazon search box choice, whose value is the lowered step without "search for" and "in the search bar" (SearchValueUnquoted states it has no outer quote). |
| Relevance.ElementsReply | src/web_automation_tool.py:185-245 | A decoded reply is returned; a failed request or decode goes to the recovery. |
| Relevance.AnalyzeElementsForAction | src/web_automation_tool.py:181-245 | The request is made on the filtered elements of the step. |
| Relevance.SearchValueUnquoted | src/web_automation_tool.py:232 | The recovered search value has no quote at either end. |
| Verification.Accepts | src/web_automation_tool.py:448 | Acceptance needs is_match true and a confidence present and above 0.7. |
| Verification.VerifyElementMatch | src/web_automation_tool.py:414-452 | True iff the reply arrived, decodes, and its verdict is accepted. |
| Verification.PositiveVerdictThreshold | src/web_automation_tool.py:448 | A positive verdict is accepted iff confidence > 0.7; exactly 0.7 is rejected. |
| Verification.AcceptsMonotone | src/web_automation_tool.py:448 | Raising the confidence of an accepted verdict keeps it accepted. |
| Verification.FailsClosed | src/web_automation_tool.py:445-452 | A raised request or an undecodable reply rejects. |
| Actions.GetText | src/script_generator.py:66 | A non-empty result is the value of an item with the key; a missing key gives "". |
| Actions.GetLocator | src/script_generator.py:73 | A missing key renders as "". |
| Actions.GetLocatorFirst | src/script_generator.py:73 | The first item with the key decides. |
| ScriptGenerator.RenderedScriptShape | src/script_generator.py:11-60 | A rendered template is its fixed head, the steps verbatim, and its tail, with {{str(e)}} collapsed to {str(e)}. |
| ScriptGenerator.Block | src/script_generator.py:64-89 | An action yields a block iff its type is navigate, input or click. |
| ScriptGenerator.NavigateBlock | src/script_generator.py:65-101 | The navigation step text of each framework: driver.get and a sleep, or page.goto and a network-idle wait. |
| ScriptGenerator.InputBlock | src/script_generator.py:72-110 | The input step text: wait, clear, type and RETURN for Selenium; fill and press Enter for Playwright. |
| ScriptGenerator.ClickBlock | src/script_generator.py:83-117 | The click step text: wait until clickable and click, or page.click. |
| ScriptGenerator.CollectSteps | src/script_generator.py:62-91 | The append loop gives the blocks of the scripted actions in log order, joined by newlines. |
| ScriptGenerator.GenerateSeleniumSteps | src/script_generator.py:62-91 | The newline-joined Selenium blocks of the log. |
| ScriptGenerator.GeneratePlaywrightSteps | src/script_generator.py:93-119 | The newline-joined Playwright blocks of the log. |
| ScriptGenerator.Script | src/script_generator.py:121-139 | Failure iff the lowered framework name is neither "selenium" nor "playwright", with ValueError("Unsupported framework: …"). |
| ScriptGenerator.GenerateScript | src/script_generator.py:121-139 | The method dispatches like the specification. |
| ScriptGenerator.BlocksAppend | src/script_generator.py:64-89 | Blocks of a concatenated log are the blocks of each part, in order. |
| ScriptGenerator.OneBlockPerScriptedAction | src/script_generator.py:64-89 | Exactly one block per navigate, input or click action. |
| ScriptGenerator.StepsAppend | src/script_generator.py:91 | The steps of two logs are their steps one newline apart. |
| ScriptGenerator.SkippedActionAddsNothing | src/script_generator.py:64-89 | Another action type leaves the steps unchanged. |
| ScriptGenerator.EveryBlockIsEmitted | src/script_generator.py:62-91 | Each scripted action's block occurs in the steps. |
| ScriptGenerator.InputSubmits | src/script_generator.py:72-80 | Every input block submits: Keys.RETURN (Selenium), Enter (Playwright). |
| ScriptGenerator.InputWithoutValueTypesNothing | src/script_generator.py:74 | Without a "value" entry the block types "". |
| ScriptGenerator.ScriptEmbedsSteps | src/script_generator.py:132-137 | A generated script is head + steps + tail of the chosen framework and contains the steps. |
| ScriptGenerator.NoActionsNoSteps | src/script_generator.py:91 | An empty log renders the template with nothing between head and tail. |
| ScriptGenerator.FrameworkNameIgnoresCase | src/script_generator.py:132-137 | The framework name is matched case-insensitively. |
| Automation.Truthy | src/web_automation_tool.py:645 | Kept entries are exactly the non-empty ones of the input. |
| Automation.Summary | src/web_automation_tool.py:634-642 | The seven keys tag, id, class, type, name, text and aria-label, in that order. |
| Automation.ElementInfo | src/web_automation_tool.py:630-651 | An element whose reads raise gives {}. |
| Automation.ElementInfoKeepsNonEmpty | src/web_automation_tool.py:633-645 | An attribute is recorded iff its value is non-empty. |
| Automation.ElementInfoHasNoValue | src/web_automation_tool.py:633-645 | The summary never has a "value" entry. |
| Automation.LoginLocators | src/web_automation_tool.py:608-614 | The five login XPaths in order, as xpath entries. |
| Automation.Alternative | src/web_automation_tool.py:601-628 | Only a step whose lowered text contains "login" can have an alternative; it is the first login XPath present (see AlternativeIsFirstLoginXPath). |
| Automation.TryAlternativeStrategies | src/web_automation_tool.py:601-628 | Only for a step mentioning "login": the first login XPath that finds an element; otherwise None. |
| Automation.AlternativesOnlyForLogin | src/web_automation_tool.py:604-607 | The step is lowered first, so its case does not change the alternative. |
| Automation.AlternativeIsFirstLoginXPath | src/web_automation_tool.py:616-621 | An alternative is the element of the first present login XPath; every earlier XPath found nothing. |
| Automation.ScanListMethod | src/web_automation_tool.py:489-493 | The inner loop overwrites the element at each lookup and leaves only itself on a verified hit. |
| Automation.ScanLocators | src/web_automation_tool.py:487-496 | One attempt's locator loop: a verified single value ends it, a list hit does not. |
| Automation.VerifiedSingleEndsScan | src/web_automation_tool.py:494-496 | A verified single-value hit is the result whatever follows it. |
| Automation.LaterMissDiscardsListHit | src/web_automation_tool.py:487-496 | A verified hit in a list is lost when a later single value finds nothing. |
| Automation.ScanOnEmptyPage | src/web_automation_tool.py:487-496 | A page where every lookup misses gives no element. |
| Automation.FindInAttempt | src/web_automation_tool.py:487-500 | The locator loop, then the login alternatives when nothing was found. |
| Automation.Resolve | src/web_automation_tool.py:480-511 | At most 3 attempts, at most one request per attempt. A found element comes from the last attempt and from a reply that has locators. |
| Automation.LocateElement | src/web_automation_tool.py:480-511 | The while loop over retry_count, element and locator_info follows the retry specification. |
| Automation.RetryOnce | src/web_automation_tool.py:485-511 | One pass of the loop moves the retry state exactly as the specification does: it counts up, or it ends with the element found. |
| Automation.MissingLocatorsAreNotRetried | src/web_automation_tool.py:485-511 | A reply without locators uses up the attempts, requesting nothing new. |
| Automation.ExhaustedRetriesRequestEachTime | src/web_automation_tool.py:474-507 | When nothing is found and every request succeeds, 3 attempts make 3 new requests, 4 captures in all. |
| Automation.FirstAttemptFindEndsLoop | src/web_automation_tool.py:484-498 | A first-attempt element ends the loop, verified or not, with no new request. |
| Automation.NavigateUrlIsCaseSensitive | src/web_automation_tool.py:464 | Without a lower-case "navigate to" the whole stripped step is the URL. |
| Automation.NavigateUrl | src/web_automation_tool.py:464 | The step without "navigate to", stripped of blanks and then of quotes. |
| Automation.SubmitsInput | src/web_automation_tool.py:525 | RETURN is pressed iff the lowered step contains "search", "submit" or "enter". |
| Automation.InteractionFor | src/web_automation_tool.py:521-535 | Typing iff the action is input, clicking iff it is click; anything else only scrolls. |
| Automation.StepOutcome | src/web_automation_tool.py:454-551 | A plan without action_type raises KeyError. A navigation either re-raises the driver's error or records {"url": url} as both summary and locators. For any other type, a failed locator request re-raises, and a retry loop ending without an element raises ElementNotFoundError("Could not find matching element for: " + step). A recorded action has the plan's type and the step's timestamp. |
| Automation.NavigationLocatesNothing | src/web_automation_tool.py:463-468 | A navigation step's outcome does not depend on the page or the locator requests: it makes none. |
| Automation.StepIsBounded | src/web_automation_tool.py:480-511 | A step makes at most 3 attempts and 4 snapshot-and-locator requests. |
| Automation.RecordedElementAction | src/web_automation_tool.py:538-542 | An element action records the found element's summary and the locators of the reply the loop ended with. |
| Automation.NavigationIsScripted | src/web_automation_tool.py:463-469 | A recorded navigation becomes a visit of its URL in either framework. |
| Automation.RecordedInputTypesNothing | src/web_automation_tool.py:538-542 | As written, a recorded input step's script block types "". |
| Automation.ResolveApiKey | src/web_automation_tool.py:27-29 | The given key, else the configured one; ValueError iff both are empty. |
| Automation.ToolScript | src/web_automation_tool.py:769-791 | An empty log raises ScriptGenerationError. Every failure is a ScriptGenerationError; a success is the generator's script. |
| Automation.RecordedActionIsScripted | src/web_automation_tool.py:769-791 | A recorded navigate/input/click action appears in the Selenium script generated afterwards. |
| Automation.WebAutomationTool.constructor | src/web_automation_tool.py:20-32 | The key is set and the log starts empty. |
| Automation.WebAutomationTool.Create | src/web_automation_tool.py:20-32 | Fails iff no key is available; otherwise a fresh tool with an empty log. |
| Automation.WebAutomationTool.RecordAction | src/web_automation_tool.py:747-767 | Appends exactly one entry at the end; earlier entries are unchanged. |
| Automation.WebAutomationTool.NavigateToUrl | src/web_automation_tool.py:731-745 | A failed driver.get re-raises and leaves the log alone; otherwise one navigate entry with {"url": url} as summary and locators is appended. |
| Automation.WebAutomationTool.ExecuteStep | src/web_automation_tool.py:454-551 | On success the step's one action is appended. On failure the log is unchanged and the error is returned. |
| Automation.WebAutomationTool.GenerateScript | src/web_automation_tool.py:769-791 | The script of the current log, or the wrapped error. |
| Utils.SanitizeFilename | src/utils.py:30-32 | Only alphanumerics, '-' and '_' remain, and the result is no longer than the input. |
| Utils.KeepAllowed | src/utils.py:32 | The generator filter keeps only allowed characters and never lengthens the name. |
| Utils.SanitizedIsSubsequence | src/utils.py:32 | The result is a subsequence of the input. |
| Utils.KeepAllowedAppend | src/utils.py:32 | The filter distributes over concatenation, so order is kept. |
| Utils.SanitizeKeepsAllowed | src/utils.py:32 | A name made only of allowed characters is unchanged. |
| Utils.SanitizeIdempotent | src/utils.py:32 | Sanitizing twice is sanitizing once. |
| Utils.SanitizeLengthExact | src/utils.py:32 | The length is kept iff every character is allowed. |
| Utils.ExtensionLosesDot | src/utils.py:32 | A name "stem.ext" of otherwise allowed characters becomes "stemext": the dot is dropped. |
| Utils.DotIsDropped | src/utils.py:32 | A trailing dot is not kept: "." is neither alphanumeric nor "-" or "_". |

## Left out

- Browser I/O: the driver, the waits and their timeouts, `execute_script`, and
  scrolling. Each is an oracle: a lookup returns an element or None.
  `initialize_browser`, `cleanup`, `wait_for_page_stability` and
  `wait_for_element_clickable` (the polling helper of the tool) have no logical
  content beyond that and are not modelled. `navigate_to_url` is modelled by
  `Automation.WebAutomationTool.NavigateToUrl`, with `driver.get` as an oracle;
  only its logging is left out.
- Language-model requests: the prompts and the client. Each reply is a
  parameter, and `json.loads` is a decoder parameter. A reply that decodes to
  something other than a dict, or holds null values, is not modelled.
- `generate_element_locators` and `get_page_elements` are one oracle per
  request. `generate_locators`, `run_test_steps` and `save_script` are not
  modelled: they are plain requests, a driver loop and file I/O.
- Timing (`time.sleep`), logging, the clock (the timestamp is a parameter),
  and configuration loading. The configured API key is a parameter.
- Floating point: the confidence is a `real`.
- Automation.Accept: a verification reply depends on the attempt and the
  element. The model does not capture a second request for the same element
  in the same attempt getting a different reply.
- Automation.Resolve: the loop's exception path also catches anything raised
  by the lookups and alternatives. Those are modelled as
  never raising: the finder, the verifier and the alternatives all catch
  their own exceptions.
- Automation.ElementInfo: the attributes of an element are read all at once;
  an element that goes stale half-way through the reads is not distinguished.
- Text: `lower()` and `isalnum()` are ASCII only.
- Actions.ListRepr: quotes inside list items are not escaped as Python's
  `repr` would.
- Relevance: the categories are the three keys `get_page_elements` produces.
  A page-elements dict with other keys, which would raise KeyError, is not
  representable. The serialized JSON of an element is an opaque string.
- ScriptGenerator.Render: the templates are held already split into literal
  text, `{{`, `}}` and `{test_steps}`. That their literal pieces contain no
  braces is read off the source, not proved.
- `defaul.py`, `test_case.py`, `src/config.py` and `src/exceptions.py` (beyond
  its class names) are not part of this model.
