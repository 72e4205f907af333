/**
 * src/script_generator.py: turns the actions log into the text of a
 * stand-alone Selenium or Playwright test script.  Each recorded navigate,
 * input or click action becomes one block of code; any other action type is
 * skipped; the blocks are joined by newlines and put into a fixed template
 * with str.format(test_steps=...).
 */
module ScriptGenerator {
  import opened Wrappers
  import opened Text
  import opened Errors
  import opened Actions

  datatype Framework = Selenium | Playwright

  /**
   * A format template as str.format reads it: literal text, the escapes `{{`
   * and `}}`, and the one replacement field `{test_steps}`.  The templates
   * are held already split into these pieces.
   */
  datatype Piece = Literal(text: string) | OpenBrace | CloseBrace | StepsField

  /** The text one piece stands for once the template is formatted. */
  function PieceText(piece: Piece, steps: string): string {
    match piece
    case Literal(text) => text
    case OpenBrace => "{"
    case CloseBrace => "}"
    case StepsField => steps
  }

  /** `template.format(test_steps=steps)`; the substituted text is not read again. */
  function Render(template: seq<Piece>, steps: string): string
    decreases |template|
  {
    if template == [] then "" else PieceText(template[0], steps) + Render(template[1..], steps)
  }

  lemma RenderFrom(template: seq<Piece>, k: nat, steps: string)
    requires k < |template|
    ensures Render(template[k..], steps) == PieceText(template[k], steps) + Render(template[k + 1..], steps)
  {
    assert template[k..][1..] == template[k + 1..];
  }

  /** Everything of the Selenium template before `{test_steps}`. */
  const SeleniumHead: string :=
    "\nfrom selenium import webdriver\nfrom selenium.webdriver.common.by import By\n"
    + "from selenium.webdriver.common.keys import Keys\nfrom selenium.webdriver.support.ui import WebDriverWait\n"
    + "from selenium.webdriver.support import expected_conditions as EC\nimport time\n\ndef run_test():\n"
    + "    # Initialize the driver\n    driver = webdriver.Chrome()\n    driver.maximize_window()\n"
    + "    wait = WebDriverWait(driver, 10)\n    \n    try:\n        "

  const SeleniumHandler: string := "\n        \n    except Exception as e:\n        print(f\"Test failed: "

  const SeleniumFoot: string :=
    "\")\n    finally:\n        time.sleep(2)  # Small delay before closing\n        driver.quit()\n\n        \n"
    + "if __name__ == \"__main__\":\n    run_test()\n"

  const PlaywrightHead: string :=
    "\nfrom playwright.sync_api import sync_playwright\nimport time\n\ndef run_test():\n"
    + "    with sync_playwright() as p:\n        browser = p.chromium.launch(headless=False)\n"
    + "        context = browser.new_context()\n        page = context.new_page()\n        \n"
    + "        try:\n            "

  const PlaywrightHandler: string := "\n            \n        except Exception as e:\n            print(f\"Test failed: "

  const PlaywrightFoot: string :=
    "\")\n        finally:\n            time.sleep(2)  # Small delay before closing\n            browser.close()\n\n"
    + "if __name__ == \"__main__\":\n    run_test()\n"

  /** The generated script's error handler prints `{str(e)}`, written `{{str(e)}}` in the template. */
  function Template(framework: Framework): seq<Piece> {
    match framework
    case Selenium =>
      [Literal(SeleniumHead), StepsField, Literal(SeleniumHandler), OpenBrace, Literal("str(e)"), CloseBrace, Literal(SeleniumFoot)]
    case Playwright =>
      [Literal(PlaywrightHead), StepsField, Literal(PlaywrightHandler), OpenBrace, Literal("str(e)"), CloseBrace, Literal(PlaywrightFoot)]
  }

  function Head(framework: Framework): string {
    match framework
    case Selenium => SeleniumHead
    case Playwright => PlaywrightHead
  }

  /** Everything of the rendered script after the steps. */
  function Tail(framework: Framework): string {
    match framework
    case Selenium => SeleniumHandler + ("{" + "str(e)" + "}") + SeleniumFoot
    case Playwright => PlaywrightHandler + ("{" + "str(e)" + "}") + PlaywrightFoot
  }

  /** The shape both templates share: text, the steps, text, `{{`, text, `}}`, text. */
  lemma {:induction false} RenderHandlerShape(head: string, handler: string, inner: string, foot: string, steps: string)
    ensures Render([Literal(head), StepsField, Literal(handler), OpenBrace, Literal(inner), CloseBrace, Literal(foot)], steps)
      == head + steps + (handler + ("{" + inner + "}") + foot)
  {
    var t := [Literal(head), StepsField, Literal(handler), OpenBrace, Literal(inner), CloseBrace, Literal(foot)];
    assert t[7..] == [];
    RenderFrom(t, 6, steps);
    RenderFrom(t, 5, steps);
    RenderFrom(t, 4, steps);
    RenderFrom(t, 3, steps);
    RenderFrom(t, 2, steps);
    RenderFrom(t, 1, steps);
    RenderFrom(t, 0, steps);
    assert t[0..] == t;
  }

  /** A rendered script is the fixed head, the steps exactly as given, and the fixed tail. */
  lemma RenderedScriptShape(framework: Framework, steps: string)
    ensures Render(Template(framework), steps) == Head(framework) + steps + Tail(framework)
  {
    match framework
    case Selenium =>
      RenderHandlerShape(SeleniumHead, SeleniumHandler, "str(e)", SeleniumFoot, steps);
    case Playwright =>
      RenderHandlerShape(PlaywrightHead, PlaywrightHandler, "str(e)", PlaywrightFoot, steps);
  }

  /** The key the framework's locator is read from: XPath for Selenium, CSS for Playwright. */
  function LocatorKey(framework: Framework): string {
    match framework
    case Selenium => "xpath"
    case Playwright => "css"
  }

  /** The line of an input block that submits what was typed. */
  function SubmitLine(framework: Framework): string {
    match framework
    case Selenium => "        element.send_keys(Keys.RETURN)"
    case Playwright => "            page.keyboard.press(\"Enter\")"
  }

  function NavigateBlock(framework: Framework, url: string): string {
    match framework
    case Selenium =>
      "\n        # Navigate to URL\n        driver.get(\"" + url + "\")\n        time.sleep(2)  # Wait for page load"
    case Playwright =>
      "\n            # Navigate to URL\n            page.goto(\"" + url + "\")\n            page.wait_for_load_state(\"networkidle\")"
  }

  function InputBlock(framework: Framework, locator: string, value: string): string {
    match framework
    case Selenium =>
      "\n        # Wait for input element and enter text\n"
      + "        element = wait.until(EC.presence_of_element_located((By.XPATH, \"" + locator + "\")))\n"
      + "        element.clear()\n        element.send_keys(\"" + value + "\")\n"
      + SubmitLine(framework) + "\n        time.sleep(2)  # Wait for search results"
    case Playwright =>
      "\n            # Fill input field and submit\n            page.fill(\"" + locator + "\", \"" + value + "\")\n"
      + SubmitLine(framework) + "\n            page.wait_for_load_state(\"networkidle\")"
  }

  function ClickBlock(framework: Framework, locator: string): string {
    match framework
    case Selenium =>
      "\n        # Wait for element to be clickable and click\n"
      + "        element = wait.until(EC.element_to_be_clickable((By.XPATH, \"" + locator + "\")))\n"
      + "        element.click()\n        time.sleep(2)  # Wait for action to complete"
    case Playwright =>
      "\n            # Click element\n            page.click(\"" + locator + "\")\n            page.wait_for_load_state(\"networkidle\")"
  }

  /** The action types that produce code; every other type is skipped. */
  predicate Scripted(a: RecordedAction) {
    a.actionType == "navigate" || a.actionType == "input" || a.actionType == "click"
  }

  /** The block one action contributes, if any. */
  function Block(framework: Framework, a: RecordedAction): (b: Option<string>)
    ensures b.Some? <==> Scripted(a)
  {
    if a.actionType == "navigate" then
      Some(NavigateBlock(framework, GetText(a.elementInfo, "url")))
    else if a.actionType == "input" then
      Some(InputBlock(framework, GetLocator(a.locators, LocatorKey(framework)), GetText(a.elementInfo, "value")))
    else if a.actionType == "click" then
      Some(ClickBlock(framework, GetLocator(a.locators, LocatorKey(framework))))
    else None
  }

  /** The blocks one action contributes to the list: none or one. */
  function Emitted(framework: Framework, a: RecordedAction): seq<string> {
    match Block(framework, a)
    case Some(b) => [b]
    case None => []
  }

  /** The blocks of a whole log, in log order. */
  function Blocks(framework: Framework, actions: seq<RecordedAction>): seq<string>
    decreases |actions|
  {
    if actions == [] then []
    else Blocks(framework, actions[..|actions| - 1]) + Emitted(framework, actions[|actions| - 1])
  }

  /** The number of actions that produce code. */
  function CountScripted(actions: seq<RecordedAction>): nat
    decreases |actions|
  {
    if actions == [] then 0
    else CountScripted(actions[..|actions| - 1]) + if Scripted(actions[|actions| - 1]) then 1 else 0
  }

  /** What generate_selenium_steps / generate_playwright_steps return. */
  function StepsText(framework: Framework, actions: seq<RecordedAction>): string {
    Join(Blocks(framework, actions), "\n")
  }

  /** The script generate_script returns, or the ValueError it raises. */
  function Script(actions: seq<RecordedAction>, framework: string): (r: Result<string, Error>)
    ensures r.Failure? <==> Lower(framework) != "selenium" && Lower(framework) != "playwright"
    ensures r.Failure? ==> r.error == ValueError("Unsupported framework: " + framework)
  {
    var name := Lower(framework);
    if name == "selenium" then Success(Render(Template(Selenium), StepsText(Selenium, actions)))
    else if name == "playwright" then Success(Render(Template(Playwright), StepsText(Playwright, actions)))
    else Failure(ValueError("Unsupported framework: " + framework))
  }

  /** The loop of generate_selenium_steps and generate_playwright_steps, which differ only in their blocks. */
  method CollectSteps(framework: Framework, actions: seq<RecordedAction>) returns (steps: string)
    ensures steps == StepsText(framework, actions)
  {
    var blocks: seq<string> := [];
    for i := 0 to |actions|
      invariant blocks == Blocks(framework, actions[..i])
    {
      assert actions[..i + 1][..i] == actions[..i];
      var b := Block(framework, actions[i]);
      if b.Some? {
        blocks := blocks + [b.value];
      }
    }
    assert actions[..|actions|] == actions;
    steps := Join(blocks, "\n");
  }

  method GenerateSeleniumSteps(actions: seq<RecordedAction>) returns (steps: string)
    ensures steps == StepsText(Selenium, actions)
  {
    steps := CollectSteps(Selenium, actions);
  }

  method GeneratePlaywrightSteps(actions: seq<RecordedAction>) returns (steps: string)
    ensures steps == StepsText(Playwright, actions)
  {
    steps := CollectSteps(Playwright, actions);
  }

  method GenerateScript(actions: seq<RecordedAction>, framework: string) returns (r: Result<string, Error>)
    ensures r == Script(actions, framework)
  {
    if Lower(framework) == "selenium" {
      var steps := GenerateSeleniumSteps(actions);
      r := Success(Render(Template(Selenium), steps));
    } else if Lower(framework) == "playwright" {
      var steps := GeneratePlaywrightSteps(actions);
      r := Success(Render(Template(Playwright), steps));
    } else {
      r := Failure(ValueError("Unsupported framework: " + framework));
    }
  }

  // ----- properties -----

  /** Blocks of a concatenated log are the blocks of each part, in order. */
  lemma {:induction false} BlocksAppend(framework: Framework, xs: seq<RecordedAction>, ys: seq<RecordedAction>)
    ensures Blocks(framework, xs + ys) == Blocks(framework, xs) + Blocks(framework, ys)
    decreases |ys|
  {
    if ys == [] {
      assert xs + ys == xs;
    } else {
      var init, last := ys[..|ys| - 1], ys[|ys| - 1];
      assert (xs + ys)[..|xs + ys| - 1] == xs + init;
      assert (xs + ys)[|xs + ys| - 1] == last;
      var e := Emitted(framework, last);
      assert Blocks(framework, xs + ys) == Blocks(framework, xs + init) + e;
      BlocksAppend(framework, xs, init);
      assert Blocks(framework, ys) == Blocks(framework, init) + e;
      SeqAssoc(Blocks(framework, xs), Blocks(framework, init), e);
    }
  }

  lemma SeqAssoc(a: seq<string>, b: seq<string>, c: seq<string>)
    ensures (a + b) + c == a + (b + c)
  {
  }

  lemma ConcatEmpty(a: string, b: string)
    ensures a + "" + b == a + b
  {
  }

  /** One block per navigate, input or click action, whatever the framework. */
  lemma {:induction false} OneBlockPerScriptedAction(framework: Framework, actions: seq<RecordedAction>)
    ensures |Blocks(framework, actions)| == CountScripted(actions)
    decreases |actions|
  {
    if actions != [] {
      OneBlockPerScriptedAction(framework, actions[..|actions| - 1]);
    }
  }

  /** The steps of a log are the steps of its two halves, one newline apart, when both produce code. */
  lemma StepsAppend(framework: Framework, xs: seq<RecordedAction>, ys: seq<RecordedAction>)
    requires CountScripted(xs) > 0 && CountScripted(ys) > 0
    ensures StepsText(framework, xs + ys) == StepsText(framework, xs) + "\n" + StepsText(framework, ys)
  {
    OneBlockPerScriptedAction(framework, xs);
    OneBlockPerScriptedAction(framework, ys);
    BlocksAppend(framework, xs, ys);
    JoinAppend(Blocks(framework, xs), Blocks(framework, ys), "\n");
  }

  /** An action that produces no code leaves the steps as they were. */
  lemma SkippedActionAddsNothing(framework: Framework, actions: seq<RecordedAction>, a: RecordedAction)
    requires !Scripted(a)
    ensures StepsText(framework, actions + [a]) == StepsText(framework, actions)
  {
    assert (actions + [a])[..|actions|] == actions;
    assert Emitted(framework, a) == [];
    assert Blocks(framework, actions + [a]) == Blocks(framework, actions) + [] == Blocks(framework, actions);
  }

  /** Each recorded action that produces code has its block in the steps text. */
  lemma {:induction false} EveryBlockIsEmitted(framework: Framework, actions: seq<RecordedAction>, k: nat)
    requires k < |actions| && Scripted(actions[k])
    ensures Contains(StepsText(framework, actions), Block(framework, actions[k]).value)
  {
    var before, rest := actions[..k], actions[k..];
    assert actions == before + rest;
    assert rest == [actions[k]] + rest[1..];
    BlocksAppend(framework, before, rest);
    BlocksAppend(framework, [actions[k]], rest[1..]);
    assert Blocks(framework, [actions[k]]) == [Block(framework, actions[k]).value] by {
      assert [actions[k]][..0] == [];
    }
    var blocks := Blocks(framework, actions);
    var j := |Blocks(framework, before)|;
    assert blocks[j] == Block(framework, actions[k]).value;
    JoinContainsEach(blocks, "\n", j);
  }

  /** Every input block submits what it typed: Keys.RETURN in Selenium, Enter in Playwright. */
  lemma InputSubmits(framework: Framework, a: RecordedAction)
    requires a.actionType == "input"
    ensures Contains(Block(framework, a).value, SubmitLine(framework))
  {
    var loc, value := GetLocator(a.locators, LocatorKey(framework)), GetText(a.elementInfo, "value");
    match framework
    case Selenium =>
      ContainsInfix(
        "\n        # Wait for input element and enter text\n"
        + "        element = wait.until(EC.presence_of_element_located((By.XPATH, \"" + loc + "\")))\n"
        + "        element.clear()\n        element.send_keys(\"" + value + "\")\n",
        SubmitLine(framework), "\n        time.sleep(2)  # Wait for search results");
    case Playwright =>
      ContainsInfix(
        "\n            # Fill input field and submit\n            page.fill(\"" + loc + "\", \"" + value + "\")\n",
        SubmitLine(framework), "\n            page.wait_for_load_state(\"networkidle\")");
  }

  /** An input action whose element information has no "value" entry types the empty string. */
  lemma InputWithoutValueTypesNothing(framework: Framework, a: RecordedAction)
    requires a.actionType == "input"
    requires forall i :: 0 <= i < |a.elementInfo| ==> a.elementInfo[i].0 != "value"
    ensures Block(framework, a) == Some(InputBlock(framework, GetLocator(a.locators, LocatorKey(framework)), ""))
  {
  }

  /** A generated script holds the steps of the chosen framework between the template's head and tail. */
  lemma ScriptEmbedsSteps(actions: seq<RecordedAction>, framework: string)
    requires Lower(framework) == "selenium" || Lower(framework) == "playwright"
    ensures var f := if Lower(framework) == "selenium" then Selenium else Playwright;
      Script(actions, framework).value == Head(f) + StepsText(f, actions) + Tail(f)
      && Contains(Script(actions, framework).value, StepsText(f, actions))
  {
    var f := if Lower(framework) == "selenium" then Selenium else Playwright;
    RenderedScriptShape(f, StepsText(f, actions));
    ContainsInfix(Head(f), StepsText(f, actions), Tail(f));
  }

  /** An empty log gives a script with no steps. */
  lemma NoActionsNoSteps(framework: Framework)
    ensures Render(Template(framework), StepsText(framework, [])) == Head(framework) + Tail(framework)
  {
    assert StepsText(framework, []) == "";
    RenderedScriptShape(framework, "");
    ConcatEmpty(Head(framework), Tail(framework));
  }

  /** The framework name is matched without regard to case. */
  lemma FrameworkNameIgnoresCase(actions: seq<RecordedAction>, framework: string)
    requires Lower(framework) == "selenium" || Lower(framework) == "playwright"
    ensures Script(actions, Lower(framework)) == Script(actions, framework)
  {
    LowerIdempotent(framework);
  }
}
