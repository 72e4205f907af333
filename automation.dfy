/**
 * The WebAutomationTool of src/web_automation_tool.py: the actions log it
 * keeps, execute_step's plan-locate-verify-act controller with its retry
 * loop, the login fallback XPaths, the element summary recorded with each
 * action, and generate_script.
 *
 * The browser, the language model and the clock are an Environment of
 * oracles.  A page can change between attempts, so the page is indexed by
 * attempt number; each snapshot-and-locator request of the step is indexed by
 * the number of requests made before it.
 */
module Automation {
  import opened Wrappers
  import opened Text
  import opened Errors
  import opened Assistant
  import opened Browser
  import opened ElementFinder
  import opened StepPlanner
  import opened Actions
  import opened Verification
  import SG = ScriptGenerator

  /** Whether a browser call returned or raised. */
  datatype Outcome = Done | Threw(message: string)

  /** The reply of generate_element_locators; `locators` is None when it has no usable "locators" object. */
  datatype LocatorInfo = LocatorInfo(locators: Option<LocatorMap>)

  /** What is done to the element once it is found: it is always scrolled into view first. */
  datatype Interaction = Typed(text: string, submit: bool) | Clicked | ScrolledOnly

  datatype Environment = Environment(
    /** The reply to analyze_step's request and the JSON decoder applied to it. */
    planReply: Reply,
    decodePlan: string -> Option<ActionPlan>,
    /** driver.get(url) for a navigation step. */
    open: string -> Outcome,
    /** get_page_elements followed by generate_element_locators, the k-th time in the step. */
    locate: nat -> Result<LocatorInfo, string>,
    /** The page as the n-th attempt sees it. */
    page: nat -> Page,
    /** verify_element_match's reply during the n-th attempt, and its JSON decoder. */
    verifyReply: (nat, WebElement) -> Reply,
    decodeVerdict: string -> Option<Verdict>,
    /** Scrolling to the element and performing the interaction. */
    act: (WebElement, Interaction) -> Outcome,
    /** datetime.now().isoformat() when the action is recorded. */
    timestamp: string)

  const MaxRetries: nat := 3

  // ----- get_element_info -----

  /** The items of a dict comprehension that keeps the truthy values. */
  function Truthy(d: seq<(string, string)>): (r: seq<(string, string)>)
    ensures forall i :: 0 <= i < |r| ==> r[i].1 != "" && r[i] in d
    ensures forall i :: 0 <= i < |d| && d[i].1 != "" ==> d[i] in r
    decreases |d|
  {
    if d == [] then []
    else (if d[0].1 != "" then [d[0]] else []) + Truthy(d[1..])
  }

  /** The attributes read from an element, in the order the dict lists them. */
  function Summary(a: ElementAttributes): seq<(string, string)> {
    [("tag", a.tag), ("id", a.id), ("class", a.className), ("type", a.elementType),
     ("name", a.name), ("text", a.text), ("aria-label", a.ariaLabel)]
  }

  /** get_element_info: the non-empty attributes, or {} when reading them raises. */
  function ElementInfo(e: WebElement): (info: seq<(string, string)>)
    ensures e.attributes.None? ==> info == []
  {
    match e.attributes
    case None => []
    case Some(a) => Truthy(Summary(a))
  }

  /** Exactly the non-empty attributes of a live element are recorded. */
  lemma ElementInfoKeepsNonEmpty(e: WebElement, key: string, value: string)
    requires e.attributes.Some? && (key, value) in Summary(e.attributes.value)
    ensures (key, value) in ElementInfo(e) <==> value != ""
  {
    var d := Summary(e.attributes.value);
    var i :| 0 <= i < |d| && d[i] == (key, value);
    if (key, value) in ElementInfo(e) {
      var j :| 0 <= j < |ElementInfo(e)| && ElementInfo(e)[j] == (key, value);
    }
  }

  /** The element information never has a "value" entry, whatever the element holds. */
  lemma ElementInfoHasNoValue(e: WebElement)
    ensures forall i :: 0 <= i < |ElementInfo(e)| ==> ElementInfo(e)[i].0 != "value"
  {
    if e.attributes.Some? {
      var info := ElementInfo(e);
      forall i | 0 <= i < |info| ensures info[i].0 != "value" {
        assert info[i] in Summary(e.attributes.value);
      }
    }
  }

  // ----- try_alternative_strategies -----

  const LoginXPaths: seq<string> := [
    "//button[contains(translate(., 'LOGIN', 'login'), 'login')]",
    "//input[@type='submit'][contains(translate(., 'LOGIN', 'login'), 'login')]",
    "//a[contains(translate(., 'LOGIN', 'login'), 'login')]",
    "//button[@type='submit'][last()]",
    "//form[contains(@action, 'login')]//button[@type='submit']"]

  /** The login XPaths as a locator cascade. */
  function LoginLocators(): (locators: Locators)
    ensures |locators| == |LoginXPaths|
    ensures forall i :: 0 <= i < |locators| ==> locators[i] == ("xpath", LoginXPaths[i])
  {
    seq(|LoginXPaths|, i requires 0 <= i < |LoginXPaths| => ("xpath", LoginXPaths[i]))
  }

  /** The element the alternative strategies find: only for a step mentioning "login", the first login XPath present. */
  function Alternative(step: string, page: Page): (r: Option<WebElement>)
    ensures r.Some? ==> Contains(Lower(step), "login")
  {
    if Contains(Lower(step), "login") then FirstResolved(LoginLocators(), Presence, PresenceStrategy, true, page)
    else None
  }

  method TryAlternativeStrategies(step: string, page: Page) returns (element: Option<WebElement>)
    ensures element == Alternative(step, page)
  {
    element := None;
    if Contains(Lower(step), "login") {
      var locators := LoginLocators();
      for i := 0 to |LoginXPaths|
        invariant FirstResolved(locators, Presence, PresenceStrategy, true, page)
               == FirstResolved(locators[i..], Presence, PresenceStrategy, true, page)
      {
        assert locators[i..][1..] == locators[i + 1..];
        assert |LoginXPaths[i]| > 0;
        var found := FindElementByLocators([("xpath", LoginXPaths[i])], page);
        if found.Some? {
          return found;
        }
      }
      assert locators[|LoginXPaths|..] == [];
    }
  }

  /** Whether a step has alternatives does not depend on its case. */
  lemma AlternativesOnlyForLogin(step: string, page: Page)
    ensures Alternative(Lower(step), page) == Alternative(step, page)
  {
    LowerIdempotent(step);
  }

  /** An alternative comes from the first login XPath present on the page. */
  lemma AlternativeIsFirstLoginXPath(step: string, page: Page)
    requires Alternative(step, page).Some?
    ensures exists i :: (0 <= i < |LoginXPaths|
      && Alternative(step, page) == page(Presence, ByXPath, LoginXPaths[i])
      && forall j :: 0 <= j < i ==> page(Presence, ByXPath, LoginXPaths[j]).None?)
  {
    var locators := LoginLocators();
    FirstResolvedIsFirstMatch(locators, Presence, PresenceStrategy, true, page);
    var i :| 0 <= i < |locators| && Resolves(locators[i], Presence, PresenceStrategy, true, page)
      && FirstResolved(locators, Presence, PresenceStrategy, true, page)
         == page(Presence, PresenceStrategy(locators[i].0).value, locators[i].1)
      && forall j :: 0 <= j < i ==> !Resolves(locators[j], Presence, PresenceStrategy, true, page);
    forall j | 0 <= j < i ensures page(Presence, ByXPath, LoginXPaths[j]).None? {
      assert !Resolves(locators[j], Presence, PresenceStrategy, true, page);
      assert |LoginXPaths[j]| > 0;
    }
  }

  // ----- one attempt of the locator loop -----

  /** `find_element_by_locators({locator_type: value})`. */
  function FindOne(locatorType: string, value: string, page: Page): Option<WebElement> {
    FirstResolved([(locatorType, value)], Presence, PresenceStrategy, true, page)
  }

  /** The verification of a found element in the n-th attempt. */
  function Accept(env: Environment, attempt: nat): WebElement -> bool {
    e => VerifyElementMatch(env.verifyReply(attempt, e), env.decodeVerdict)
  }

  /**
   * The inner loop over a list value: each lookup overwrites `element`, and a
   * verified element ends only this inner loop.
   */
  function ScanList(locatorType: string, items: seq<string>, page: Page, accept: WebElement -> bool,
                    element: Option<WebElement>): Option<WebElement>
    decreases |items|
  {
    if items == [] then element
    else
      var found := FindOne(locatorType, items[0], page);
      if found.Some? && accept(found.value) then found
      else ScanList(locatorType, items[1..], page, accept, found)
  }

  /**
   * The loop over the locator items: a list is scanned as above; a single
   * value's lookup overwrites `element`, and a verified element ends the
   * whole loop.
   */
  function Scan(locators: LocatorMap, page: Page, accept: WebElement -> bool, element: Option<WebElement>): Option<WebElement>
    decreases |locators|
  {
    if locators == [] then element
    else
      var (locatorType, value) := locators[0];
      match value
      case Single(v) =>
        var found := FindOne(locatorType, v, page);
        if found.Some? && accept(found.value) then found
        else Scan(locators[1..], page, accept, found)
      case Many(items) =>
        Scan(locators[1..], page, accept, ScanList(locatorType, items, page, accept, element))
  }

  /** A verified element of a single value ends the scan, whatever follows. */
  lemma VerifiedSingleEndsScan(locatorType: string, v: string, rest: LocatorMap, page: Page,
                               accept: WebElement -> bool, element: Option<WebElement>)
    requires FindOne(locatorType, v, page).Some? && accept(FindOne(locatorType, v, page).value)
    ensures Scan([(locatorType, Single(v))] + rest, page, accept, element) == FindOne(locatorType, v, page)
  {
  }

  /** A verified element of a list does not end the scan: a later single value that finds nothing discards it. */
  lemma LaterMissDiscardsListHit(listType: string, items: seq<string>, singleType: string, v: string, page: Page,
                                 accept: WebElement -> bool)
    requires FindOne(singleType, v, page).None?
    ensures Scan([(listType, Many(items)), (singleType, Single(v))], page, accept, None) == None
  {
    var l := [(listType, Many(items)), (singleType, Single(v))];
    var afterList := ScanList(listType, items, page, accept, None);
    assert Scan(l, page, accept, None) == Scan(l[1..], page, accept, afterList);
    assert l[1..][1..] == [];
    assert Scan(l[1..], page, accept, afterList) == Scan([], page, accept, None);
  }

  /** On a page where no lookup finds anything, the scan finds nothing. */
  lemma {:induction false} ScanOnEmptyPage(locators: LocatorMap, page: Page, accept: WebElement -> bool)
    requires forall t, v :: FindOne(t, v, page).None?
    ensures Scan(locators, page, accept, None) == None
    decreases |locators|
  {
    if locators != [] {
      match locators[0].1
      case Single(v) =>
        ScanOnEmptyPage(locators[1..], page, accept);
      case Many(items) =>
        ScanListOnEmptyPage(locators[0].0, items, page, accept);
        ScanOnEmptyPage(locators[1..], page, accept);
    }
  }

  lemma {:induction false} ScanListOnEmptyPage(locatorType: string, items: seq<string>, page: Page, accept: WebElement -> bool)
    requires forall t, v :: FindOne(t, v, page).None?
    ensures ScanList(locatorType, items, page, accept, None) == None
    decreases |items|
  {
    if items != [] {
      ScanListOnEmptyPage(locatorType, items[1..], page, accept);
    }
  }

  method ScanListMethod(locatorType: string, items: seq<string>, page: Page, accept: WebElement -> bool,
                        element0: Option<WebElement>) returns (element: Option<WebElement>)
    ensures element == ScanList(locatorType, items, page, accept, element0)
  {
    element := element0;
    for j := 0 to |items|
      invariant ScanList(locatorType, items, page, accept, element0) == ScanList(locatorType, items[j..], page, accept, element)
    {
      assert items[j..][1..] == items[j + 1..];
      element := FindElementByLocators([(locatorType, items[j])], page);
      if element.Some? && accept(element.value) {
        return;
      }
    }
    assert items[|items|..] == [];
  }

  /** The body of one attempt's `for locator_type, locator_value in ...items()` loop. */
  method ScanLocators(locators: LocatorMap, page: Page, accept: WebElement -> bool) returns (element: Option<WebElement>)
    ensures element == Scan(locators, page, accept, None)
  {
    element := None;
    for i := 0 to |locators|
      invariant Scan(locators, page, accept, None) == Scan(locators[i..], page, accept, element)
    {
      assert locators[i..][1..] == locators[i + 1..];
      var (locatorType, value) := locators[i];
      match value {
        case Single(v) =>
          element := FindElementByLocators([(locatorType, v)], page);
          if element.Some? && accept(element.value) {
            return;
          }
        case Many(items) =>
          element := ScanListMethod(locatorType, items, page, accept, element);
      }
    }
    assert locators[|locators|..] == [];
  }

  /** What one attempt finds: the scan's element, or else an alternative. */
  function AttemptFind(step: string, env: Environment, locators: LocatorMap, attempt: nat): Option<WebElement> {
    var found := Scan(locators, env.page(attempt), Accept(env, attempt), None);
    if found.Some? then found else Alternative(step, env.page(attempt))
  }

  // ----- the retry loop -----

  /** Where the retry loop ends: the element, the last locator reply, and how many attempts and requests were made. */
  datatype Resolution = Resolution(element: Option<WebElement>, info: LocatorInfo, attempts: nat, captures: nat)

  /**
   * The loop of lines 485-511 from a given state.  An attempt whose reply has
   * no locators raises at once and only counts; an attempt that finds nothing
   * makes a new request, and a request that raises counts twice.
   */
  function Resolve(step: string, env: Environment, info: LocatorInfo, retry: nat, attempt: nat, captures: nat): (r: Resolution)
    ensures attempt <= r.attempts && (retry >= MaxRetries ==> r.attempts == attempt)
    ensures retry <= MaxRetries ==> r.attempts <= attempt + (MaxRetries - retry)
    ensures captures <= r.captures <= captures + (r.attempts - attempt)
    ensures r.element.Some? ==> (r.info.locators.Some? && r.attempts > attempt
      && r.element == AttemptFind(step, env, r.info.locators.value, r.attempts - 1))
    ensures r.element.None? ==> retry >= MaxRetries || r.attempts > attempt
    decreases MaxRetries - retry
  {
    if retry >= MaxRetries then Resolution(None, info, attempt, captures)
    else
      match info.locators
      case None => Resolve(step, env, info, retry + 1, attempt + 1, captures)
      case Some(locators) =>
        var element := AttemptFind(step, env, locators, attempt);
        if element.Some? then Resolution(element, info, attempt + 1, captures)
        else
          match env.locate(captures)
          case Success(next) => Resolve(step, env, next, retry + 1, attempt + 1, captures + 1)
          case Failure(_) => Resolve(step, env, info, retry + 2, attempt + 1, captures + 1)
  }

  /** A reply without locators is never requested again: the loop spends its attempts on it. */
  lemma {:induction false} MissingLocatorsAreNotRetried(step: string, env: Environment, info: LocatorInfo,
                                                        retry: nat, attempt: nat, captures: nat)
    requires info.locators.None? && retry <= MaxRetries
    ensures Resolve(step, env, info, retry, attempt, captures)
         == Resolution(None, info, attempt + (MaxRetries - retry), captures)
    decreases MaxRetries - retry
  {
    if retry < MaxRetries {
      MissingLocatorsAreNotRetried(step, env, info, retry + 1, attempt + 1, captures);
    }
  }

  /** When nothing is ever found and every request succeeds, each attempt makes a new request. */
  lemma {:induction false} ExhaustedRetriesRequestEachTime(step: string, env: Environment, info: LocatorInfo,
                                                           retry: nat, attempt: nat, captures: nat)
    requires info.locators.Some? && retry <= MaxRetries
    requires forall k :: env.locate(k).Success? && env.locate(k).value.locators.Some?
    requires forall l, n :: AttemptFind(step, env, l, n).None?
    ensures var r := Resolve(step, env, info, retry, attempt, captures);
      r.element.None? && r.attempts == attempt + (MaxRetries - retry) && r.captures == captures + (MaxRetries - retry)
    decreases MaxRetries - retry
  {
    if retry < MaxRetries {
      assert env.locate(captures).Success?;
      ExhaustedRetriesRequestEachTime(step, env, env.locate(captures).value, retry + 1, attempt + 1, captures + 1);
    }
  }

  /** An element found in the first attempt ends the loop without a new request, verified or not. */
  lemma FirstAttemptFindEndsLoop(step: string, env: Environment, info: LocatorInfo)
    requires info.locators.Some? && AttemptFind(step, env, info.locators.value, 0).Some?
    ensures Resolve(step, env, info, 0, 0, 1) == Resolution(AttemptFind(step, env, info.locators.value, 0), info, 1, 1)
  {
  }

  /** The retry loop of execute_step (lines 480-511), from the first locator reply. */
  method LocateElement(step: string, env: Environment, info0: LocatorInfo)
    returns (element: Option<WebElement>, info: LocatorInfo)
    ensures var r := Resolve(step, env, info0, 0, 0, 1); element == r.element && info == r.info
  {
    info := info0;
    var retry, attempt, captures := 0, 0, 1;
    element := None;
    while retry < MaxRetries && element.None?
      invariant element.None? ==> Resolve(step, env, info0, 0, 0, 1) == Resolve(step, env, info, retry, attempt, captures)
      invariant element.Some? ==> Resolve(step, env, info0, 0, 0, 1) == Resolution(element, info, attempt, captures)
      decreases MaxRetries - retry, element.None?
    {
      element, info, retry, attempt, captures := RetryOnce(step, env, info, retry, attempt, captures);
    }
  }

  /** One pass of the while loop: the attempt, and the new request when it finds nothing. */
  method RetryOnce(step: string, env: Environment, info: LocatorInfo, retry: nat, attempt: nat, captures: nat)
    returns (element: Option<WebElement>, info': LocatorInfo, retry': nat, attempt': nat, captures': nat)
    requires retry < MaxRetries
    ensures element.None? ==> (retry' > retry
      && Resolve(step, env, info, retry, attempt, captures) == Resolve(step, env, info', retry', attempt', captures'))
    ensures element.Some? ==> retry' == retry
    ensures element.Some? ==> Resolve(step, env, info, retry, attempt, captures) == Resolution(element, info', attempt', captures')
  {
    info', retry', attempt', captures' := info, retry, attempt + 1, captures;
    if info.locators.None? {
      element, retry' := None, retry + 1;
      return;
    }
    element := FindInAttempt(step, env, info.locators.value, attempt);
    if element.None? {
      var next := env.locate(captures);
      if next.Success? {
        info', retry' := next.value, retry + 1;
      } else {
        retry' := retry + 2;
      }
      captures' := captures + 1;
    }
  }

  /** One attempt: the locator loop, then the alternative strategies. */
  method FindInAttempt(step: string, env: Environment, locators: LocatorMap, attempt: nat)
    returns (element: Option<WebElement>)
    ensures element == AttemptFind(step, env, locators, attempt)
  {
    var page := env.page(attempt);
    element := ScanLocators(locators, page, Accept(env, attempt));
    if element.None? {
      element := TryAlternativeStrategies(step, page);
    }
  }

  // ----- execute_step -----

  /** The URL of a navigation step: the step without the lower-case words "navigate to", stripped of blanks and quotes. */
  function NavigateUrl(step: string): string {
    StripChar(Strip(ReplaceAll(step, "navigate to", "")), '\'')
  }

  /** The replacement is case-sensitive: a step that does not contain "navigate to" keeps its whole text in the URL. */
  lemma NavigateUrlIsCaseSensitive(step: string)
    requires !Contains(step, "navigate to")
    ensures NavigateUrl(step) == StripChar(Strip(step), '\'')
  {
    ReplaceAllAbsent(step, "navigate to", "");
  }

  /** Whether an input step presses RETURN after typing. */
  predicate SubmitsInput(step: string) {
    var s := Lower(step);
    Contains(s, "search") || Contains(s, "submit") || Contains(s, "enter")
  }

  function InteractionFor(actionType: string, plan: ActionPlan, step: string): (i: Interaction)
    ensures i.Typed? <==> actionType == "input"
    ensures i.Clicked? <==> actionType == "click"
  {
    if actionType == "input" then Typed(StripChar(plan.inputValue.GetOr(""), '\''), SubmitsInput(step))
    else if actionType == "click" then Clicked
    else ScrolledOnly
  }

  /**
   * The action execute_step records, or the exception it raises.  Every
   * successful step records exactly one action.
   */
  function StepOutcome(step: string, env: Environment): (r: Result<RecordedAction, Error>)
    ensures var plan := AnalyzeStep(step, env.planReply, env.decodePlan);
      && (plan.actionType.None? ==> r == Failure(KeyError("action_type")))
      && (r.Success? ==> plan.actionType == Some(r.value.actionType) && r.value.timestamp == env.timestamp)
    ensures var plan := AnalyzeStep(step, env.planReply, env.decodePlan);
      var url := NavigateUrl(step);
      plan.actionType == Some("navigate") ==>
        && (env.open(url).Threw? ==> r == Failure(CollaboratorError(env.open(url).message)))
        && (env.open(url).Done? ==> r == Success(RecordedAction("navigate", [("url", url)], [("url", Single(url))], env.timestamp)))
    ensures var plan := AnalyzeStep(step, env.planReply, env.decodePlan);
      plan.actionType.Some? && plan.actionType != Some("navigate") ==>
        && (env.locate(0).Failure? ==> r == Failure(CollaboratorError(env.locate(0).error)))
        && (env.locate(0).Success? && Resolve(step, env, env.locate(0).value, 0, 0, 1).element.None? ==>
              r == Failure(ElementNotFoundError("Could not find matching element for: " + step)))
  {
    var plan := AnalyzeStep(step, env.planReply, env.decodePlan);
    match plan.actionType
    case None => Failure(KeyError("action_type"))
    case Some(actionType) =>
      if actionType == "navigate" then
        var url := NavigateUrl(step);
        match env.open(url)
        case Threw(m) => Failure(CollaboratorError(m))
        case Done => Success(RecordedAction("navigate", [("url", url)], [("url", Single(url))], env.timestamp))
      else
        match env.locate(0)
        case Failure(m) => Failure(CollaboratorError(m))
        case Success(info) =>
          var res := Resolve(step, env, info, 0, 0, 1);
          match res.element
          case None => Failure(ElementNotFoundError("Could not find matching element for: " + step))
          case Some(e) =>
            match env.act(e, InteractionFor(actionType, plan, step))
            case Threw(m) => Failure(CollaboratorError(m))
            case Done => Success(RecordedAction(actionType, ElementInfo(e), res.info.locators.value, env.timestamp))
  }

  /** A navigation step makes no locator request and looks at no page: those collaborators do not affect it. */
  lemma NavigationLocatesNothing(step: string, env: Environment, locate: nat -> Result<LocatorInfo, string>, page: nat -> Page)
    requires AnalyzeStep(step, env.planReply, env.decodePlan).actionType == Some("navigate")
    ensures StepOutcome(step, env.(locate := locate, page := page)) == StepOutcome(step, env)
  {
  }

  /** A step takes at most three attempts and at most four snapshot-and-locator requests. */
  lemma StepIsBounded(step: string, env: Environment, info: LocatorInfo)
    ensures var r := Resolve(step, env, info, 0, 0, 1); r.attempts <= 3 && r.captures <= 4
  {
  }

  /** A recorded element action carries an element summary and the locators of the reply that found it. */
  lemma RecordedElementAction(step: string, env: Environment)
    requires StepOutcome(step, env).Success? && StepOutcome(step, env).value.actionType != "navigate"
    ensures var a := StepOutcome(step, env).value;
      env.locate(0).Success?
      && var res := Resolve(step, env, env.locate(0).value, 0, 0, 1);
      res.element.Some? && a.elementInfo == ElementInfo(res.element.value) && Some(a.locators) == res.info.locators
  {
  }

  /** A navigation step is scripted as a visit of its URL. */
  lemma NavigationIsScripted(step: string, env: Environment, framework: SG.Framework)
    requires StepOutcome(step, env).Success? && StepOutcome(step, env).value.actionType == "navigate"
    ensures SG.Block(framework, StepOutcome(step, env).value) == Some(SG.NavigateBlock(framework, NavigateUrl(step)))
  {
  }

  /** As written, a recorded input step is scripted as typing the empty string: the element summary has no "value". */
  lemma RecordedInputTypesNothing(step: string, env: Environment, framework: SG.Framework)
    requires StepOutcome(step, env).Success? && StepOutcome(step, env).value.actionType == "input"
    ensures var a := StepOutcome(step, env).value;
      SG.Block(framework, a) == Some(SG.InputBlock(framework, GetLocator(a.locators, SG.LocatorKey(framework)), ""))
  {
    var plan := AnalyzeStep(step, env.planReply, env.decodePlan);
    var res := Resolve(step, env, env.locate(0).value, 0, 0, 1);
    ElementInfoHasNoValue(res.element.value);
    SG.InputWithoutValueTypesNothing(framework, StepOutcome(step, env).value);
  }

  // ----- the tool -----

  /** `api_key or Config.OPENAI_API_KEY`; an empty string stands for None. */
  function ResolveApiKey(given: string, configured: string): (r: Result<string, Error>)
    ensures r.Success? ==> r.value != "" && r.value == (if given != "" then given else configured)
    ensures r.Failure? <==> given == "" && configured == ""
    ensures r.Failure? ==> r.error == ValueError("OpenAI API key is required")
  {
    var key := if given != "" then given else configured;
    if key == "" then Failure(ValueError("OpenAI API key is required")) else Success(key)
  }

  /** generate_script of the tool: the log must not be empty, and every failure is wrapped. */
  function ToolScript(actions: seq<RecordedAction>, framework: string): (r: Result<string, Error>)
    ensures r.Failure? ==> r.error.ScriptGenerationError?
    ensures r.Success? ==> actions != [] && SG.Script(actions, framework) == r
    ensures actions == [] ==> r == Failure(ScriptGenerationError("Script generation failed: No actions recorded to generate script"))
  {
    if actions == [] then Failure(ScriptGenerationError("Script generation failed: No actions recorded to generate script"))
    else
      match SG.Script(actions, framework)
      case Success(script) => Success(script)
      case Failure(e) => Failure(ScriptGenerationError("Script generation failed: " + e.message))
  }

  /** A recorded navigate, input or click action is in the Selenium script generated afterwards. */
  lemma RecordedActionIsScripted(actions: seq<RecordedAction>, a: RecordedAction, framework: string)
    requires SG.Scripted(a) && Lower(framework) == "selenium"
    ensures ToolScript(actions + [a], framework).Success?
    ensures Contains(ToolScript(actions + [a], framework).value, SG.Block(SG.Selenium, a).value)
  {
    var log := actions + [a];
    SG.ScriptEmbedsSteps(log, framework);
    SG.EveryBlockIsEmitted(SG.Selenium, log, |actions|);
    ContainsTrans(ToolScript(log, framework).value, SG.StepsText(SG.Selenium, log), SG.Block(SG.Selenium, a).value);
  }

  class WebAutomationTool {
    var apiKey: string
    /** The actions log, in the order the actions were recorded. */
    var actions: seq<RecordedAction>

    constructor (key: string)
      ensures apiKey == key && actions == []
    {
      apiKey := key;
      actions := [];
    }

    /** __init__: the given key, else the configured one; neither raises ValueError. */
    static method Create(given: string, configured: string) returns (r: Result<WebAutomationTool, Error>)
      ensures ResolveApiKey(given, configured).Failure? ==> r == Failure(ResolveApiKey(given, configured).error)
      ensures ResolveApiKey(given, configured).Success? ==>
        r.Success? && fresh(r.value) && r.value.apiKey == ResolveApiKey(given, configured).value && r.value.actions == []
    {
      match ResolveApiKey(given, configured) {
        case Failure(e) =>
          r := Failure(e);
        case Success(key) =>
          var tool := new WebAutomationTool(key);
          r := Success(tool);
      }
    }

    /** record_action: appends one entry to the log. */
    method RecordAction(actionType: string, elementInfo: seq<(string, string)>, locators: LocatorMap, timestamp: string)
      modifies this
      ensures actions == old(actions) + [RecordedAction(actionType, elementInfo, locators, timestamp)]
      ensures apiKey == old(apiKey)
    {
      actions := actions + [RecordedAction(actionType, elementInfo, locators, timestamp)];
    }

    /** navigate_to_url: opens the URL and logs it as a navigation whose summary and locators are both {"url": url}. */
    method NavigateToUrl(url: string, open: string -> Outcome, timestamp: string) returns (failure: Option<Error>)
      modifies this
      ensures apiKey == old(apiKey)
      ensures open(url).Threw? ==> failure == Some(CollaboratorError(open(url).message)) && actions == old(actions)
      ensures open(url).Done? ==>
        failure.None? && actions == old(actions) + [RecordedAction("navigate", [("url", url)], [("url", Single(url))], timestamp)]
    {
      var visit := open(url);
      if visit.Threw? {
        return Some(CollaboratorError(visit.message));
      }
      RecordAction("navigate", [("url", url)], [("url", Single(url))], timestamp);
      failure := None;
    }

    /** execute_step: on success the step's action is appended to the log; on failure the log is unchanged. */
    method ExecuteStep(step: string, env: Environment) returns (failure: Option<Error>)
      modifies this
      ensures apiKey == old(apiKey)
      ensures StepOutcome(step, env).Success? ==> failure.None? && actions == old(actions) + [StepOutcome(step, env).value]
      ensures StepOutcome(step, env).Failure? ==> failure == Some(StepOutcome(step, env).error) && actions == old(actions)
    {
      var plan := AnalyzeStep(step, env.planReply, env.decodePlan);
      if plan.actionType.None? {
        return Some(KeyError("action_type"));
      }
      var actionType := plan.actionType.value;
      if actionType == "navigate" {
        var url := NavigateUrl(step);
        var visit := env.open(url);
        if visit.Threw? {
          return Some(CollaboratorError(visit.message));
        }
        RecordAction("navigate", [("url", url)], [("url", Single(url))], env.timestamp);
        return None;
      }
      var located := env.locate(0);
      if located.Failure? {
        return Some(CollaboratorError(located.error));
      }
      var element, info := LocateElement(step, env, located.value);
      if element.None? {
        return Some(ElementNotFoundError("Could not find matching element for: " + step));
      }
      var acted := env.act(element.value, InteractionFor(actionType, plan, step));
      if acted.Threw? {
        return Some(CollaboratorError(acted.message));
      }
      RecordAction(actionType, ElementInfo(element.value), info.locators.value, env.timestamp);
      failure := None;
    }

    /** generate_script: the script of the log so far, which stays as it is. */
    method GenerateScript(framework: string, language: string) returns (r: Result<string, Error>)
      ensures r == ToolScript(actions, framework)
    {
      if actions == [] {
        return Failure(ScriptGenerationError("Script generation failed: No actions recorded to generate script"));
      }
      var script := SG.GenerateScript(actions, framework);
      match script {
        case Success(s) => r := Success(s);
        case Failure(e) => r := Failure(ScriptGenerationError("Script generation failed: " + e.message));
      }
    }
  }
}
