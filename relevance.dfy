/**
 * filter_relevant_elements and analyze_elements_for_action
 * (src/web_automation_tool.py:159-244): the keyword filter over the page
 * elements and the canned answers used when the request is too long for the
 * model.
 */
module Relevance {
  import opened Wrappers
  import opened Text
  import opened Errors
  import opened Assistant

  /** The three lists of get_page_elements. */
  datatype Category = Inputs | Buttons | Links

  /**
   * One element record.  `serialized` is json.dumps of the whole record; a
   * missing or null "preceding_text" or "label" is the empty string, just as
   * falsy.
   */
  datatype PageElement = PageElement(serialized: string, precedingText: string, labelText: string)

  /** The filtered dict, which always has the three keys. */
  datatype Buckets = Buckets(inputs: seq<PageElement>, buttons: seq<PageElement>, links: seq<PageElement>)

  function Bucket(b: Buckets, category: Category): seq<PageElement> {
    match category
    case Inputs => b.inputs
    case Buttons => b.buttons
    case Links => b.links
  }

  /** The buckets with `more` appended to one of them. */
  function Extend(b: Buckets, category: Category, more: seq<PageElement>): (r: Buckets)
    ensures Bucket(r, category) == Bucket(b, category) + more
    ensures forall other :: other != category ==> Bucket(r, other) == Bucket(b, other)
  {
    match category
    case Inputs => b.(inputs := b.inputs + more)
    case Buttons => b.(buttons := b.buttons + more)
    case Links => b.(links := b.links + more)
  }

  lemma ExtendTwice(b: Buckets, category: Category, first: seq<PageElement>, second: seq<PageElement>)
    ensures Extend(Extend(b, category, first), category, second) == Extend(b, category, first + second)
  {
  }

  lemma ExtendNothing(b: Buckets, category: Category)
    ensures Extend(b, category, []) == b
  {
    match category
    case Inputs => assert b.inputs + [] == b.inputs;
    case Buttons => assert b.buttons + [] == b.buttons;
    case Links => assert b.links + [] == b.links;
  }

  /** Line 165: the key terms of the step. */
  function Terms(stepDescription: string): seq<string> {
    var step := Lower(stepDescription);
    Split(Strip(ReplaceAll(ReplaceAll(ReplaceAll(ReplaceAll(ReplaceAll(step,
      "click on", ""), "enter", ""), "type", ""), "in the", ""), "field", "")))
  }

  /** `any(term.lower() in text.lower() for term in terms)`. */
  predicate Matches(text: string, terms: seq<string>) {
    exists k :: 0 <= k < |terms| && Contains(Lower(text), Lower(terms[k]))
  }

  /** The copies of one element the filter appends: one per matching source (lines 170-177). */
  function Copies(e: PageElement, terms: seq<string>): (r: seq<PageElement>)
    ensures |r| <= 3
    ensures forall x :: x in r ==> x == e
  {
    (if Matches(e.serialized, terms) then [e] else [])
    + (if e.precedingText != "" && Matches(e.precedingText, terms) then [e] else [])
    + (if e.labelText != "" && Matches(e.labelText, terms) then [e] else [])
  }

  /** What the filter keeps of one list, in order. */
  function Selected(elements: seq<PageElement>, terms: seq<string>): seq<PageElement>
    decreases |elements|
  {
    if elements == [] then []
    else Selected(elements[..|elements| - 1], terms) + Copies(elements[|elements| - 1], terms)
  }

  /** The filtered dict after the given items of page_elements. */
  function Filtered(pageElements: seq<(Category, seq<PageElement>)>, terms: seq<string>): Buckets
    decreases |pageElements|
  {
    if pageElements == [] then Buckets([], [], [])
    else
      var last := pageElements[|pageElements| - 1];
      Extend(Filtered(pageElements[..|pageElements| - 1], terms), last.0, Selected(last.1, terms))
  }

  /** The body of the inner loop (lines 169-177): one append per matching source. */
  method AppendMatches(filtered: Buckets, category: Category, element: PageElement, terms: seq<string>)
    returns (r: Buckets)
    ensures r == Extend(filtered, category, Copies(element, terms))
  {
    var inText := Matches(element.serialized, terms);
    var inPreceding := element.precedingText != "" && Matches(element.precedingText, terms);
    var inLabel := element.labelText != "" && Matches(element.labelText, terms);
    ghost var first, second, third := if inText then [element] else [],
      if inPreceding then [element] else [], if inLabel then [element] else [];
    r := AppendIf(filtered, category, element, inText);
    r := AppendIf(r, category, element, inPreceding);
    ExtendTwice(filtered, category, first, second);
    r := AppendIf(r, category, element, inLabel);
    ExtendTwice(filtered, category, first + second, third);
  }

  /** One `if ...: filtered[element_type].append(element)`. */
  method AppendIf(filtered: Buckets, category: Category, element: PageElement, matched: bool) returns (r: Buckets)
    ensures r == Extend(filtered, category, if matched then [element] else [])
  {
    r := filtered;
    if matched {
      r := Extend(r, category, [element]);
    } else {
      ExtendNothing(filtered, category);
    }
  }

  /** filter_relevant_elements (lines 159-179). */
  method FilterRelevantElements(pageElements: seq<(Category, seq<PageElement>)>, stepDescription: string)
    returns (filtered: Buckets)
    ensures filtered == Filtered(pageElements, Terms(stepDescription))
  {
    var terms := Terms(stepDescription);
    filtered := Buckets([], [], []);
    for i := 0 to |pageElements|
      invariant filtered == Filtered(pageElements[..i], terms)
    {
      var (category, elements) := pageElements[i];
      assert pageElements[..i + 1][..i] == pageElements[..i];
      ghost var start := filtered;
      assert Extend(start, category, Selected(elements[..0], terms)) == start by {
        assert elements[..0] == [];
        ExtendNothing(start, category);
      }
      for j := 0 to |elements|
        invariant filtered == Extend(start, category, Selected(elements[..j], terms))
      {
        assert elements[..j + 1][..j] == elements[..j];
        filtered := AppendMatches(filtered, category, elements[j], terms);
        assert Selected(elements[..j + 1], terms) == Selected(elements[..j], terms) + Copies(elements[j], terms);
        ExtendTwice(start, category, Selected(elements[..j], terms), Copies(elements[j], terms));
      }
      assert elements[..|elements|] == elements;
    }
    assert pageElements[..|pageElements|] == pageElements;
  }

  /** Filtering distributes over concatenation, so the kept elements stay in input order. */
  lemma {:induction false} SelectedAppend(a: seq<PageElement>, b: seq<PageElement>, terms: seq<string>)
    ensures Selected(a + b, terms) == Selected(a, terms) + Selected(b, terms)
    decreases |b|
  {
    if b == [] {
      assert a + b == a;
    } else {
      var init, last := b[..|b| - 1], b[|b| - 1];
      assert (a + b)[..|a + b| - 1] == a + init;
      assert (a + b)[|a + b| - 1] == last;
      SelectedAppend(a, init, terms);
      var sa, si, cl := Selected(a, terms), Selected(init, terms), Copies(last, terms);
      assert Selected(a + b, terms) == Selected(a + init, terms) + cl;
      assert Selected(b, terms) == si + cl;
      Associative(sa, si, cl);
    }
  }

  lemma Associative(x: seq<PageElement>, y: seq<PageElement>, z: seq<PageElement>)
    ensures x + y + z == x + (y + z)
  {
  }

  /** Every kept element comes from the list it was kept from, at most three times per occurrence. */
  lemma {:induction false} SelectedFromInput(elements: seq<PageElement>, terms: seq<string>)
    ensures forall x :: x in Selected(elements, terms) ==> x in elements
    ensures |Selected(elements, terms)| <= 3 * |elements|
    decreases |elements|
  {
    if elements != [] {
      var init := elements[..|elements| - 1];
      SelectedFromInput(init, terms);
      assert forall x :: x in init ==> x in elements;
    }
  }

  /** An element whose serialized text mentions a term is kept at least once, in its position's turn. */
  lemma SelectedKeepsMatching(before: seq<PageElement>, e: PageElement, after: seq<PageElement>, terms: seq<string>)
    requires Matches(e.serialized, terms)
    ensures e in Selected(before + [e] + after, terms)
  {
    SelectedAppend(before + [e], after, terms);
    assert (before + [e])[..|before|] == before;
  }

  /** Without terms, nothing is kept. */
  lemma {:induction false} NoTermsSelectNothing(elements: seq<PageElement>)
    ensures Selected(elements, []) == []
    decreases |elements|
  {
    if elements != [] {
      NoTermsSelectNothing(elements[..|elements| - 1]);
    }
  }

  /** The elements of one category, in the order the dict lists them. */
  function ElementsOf(pageElements: seq<(Category, seq<PageElement>)>, category: Category): seq<PageElement>
    decreases |pageElements|
  {
    if pageElements == [] then []
    else
      var last := pageElements[|pageElements| - 1];
      ElementsOf(pageElements[..|pageElements| - 1], category) + (if last.0 == category then last.1 else [])
  }

  /** Output list k is exactly the selection from input list k: nothing crosses between categories. */
  lemma {:induction false} BucketsKeepCategories(pageElements: seq<(Category, seq<PageElement>)>,
                                                 terms: seq<string>, category: Category)
    ensures Bucket(Filtered(pageElements, terms), category) == Selected(ElementsOf(pageElements, category), terms)
    decreases |pageElements|
  {
    if pageElements == [] {
    } else {
      var init := pageElements[..|pageElements| - 1];
      var last := pageElements[|pageElements| - 1];
      BucketsKeepCategories(init, terms, category);
      if last.0 == category {
        SelectedAppend(ElementsOf(init, category), last.1, terms);
      } else {
        assert ElementsOf(pageElements, category) == ElementsOf(init, category) + [];
        assert ElementsOf(init, category) + [] == ElementsOf(init, category);
      }
    }
  }

  /** The element the model picked (lines 196-204). */
  datatype ElementChoice = ElementChoice(
    actionType: string, xpath: string, css: string, reason: string,
    inputValue: Option<string>, waitTime: int)

  /** Lines 225-233: the Amazon search box, with the search phrase as the value. */
  function SearchBoxChoice(stepDescription: string): ElementChoice {
    var value := StripChar(Strip(ReplaceAll(ReplaceAll(Lower(stepDescription), "search for", ""), "in the search bar", "")), '\'');
    ElementChoice("input", "//input[@id='twotabsearchtextbox']", "#twotabsearchtextbox", "Amazon search box", Some(value), 2)
  }

  /** Lines 236-243: the first search result. */
  const FirstResultChoice := ElementChoice(
    "click", "(//div[@data-component-type='s-search-result']//h2//a)[1]",
    "div[data-component-type='s-search-result'] h2 a", "First search result", None, 2)

  /**
   * The except clause of lines 220-244: a canned choice when the error
   * message mentions "context_length_exceeded" and the step a search or the
   * first link, and otherwise the same error raised again.
   */
  function Recover(stepDescription: string, message: string): (r: Result<ElementChoice, Error>)
    ensures r.Success? <==> Contains(message, "context_length_exceeded")
                            && (Contains(Lower(stepDescription), "search") || Contains(Lower(stepDescription), "first link"))
    ensures r.Failure? ==> r.error == CollaboratorError(message)
    ensures r.Success? && Contains(Lower(stepDescription), "search") ==> r.value == SearchBoxChoice(stepDescription)
    ensures r.Success? && !Contains(Lower(stepDescription), "search") ==> r.value == FirstResultChoice
  {
    if !Contains(message, "context_length_exceeded") then Failure(CollaboratorError(message))
    else if Contains(Lower(stepDescription), "search") then Success(SearchBoxChoice(stepDescription))
    else if Contains(Lower(stepDescription), "first link") then Success(FirstResultChoice)
    else Failure(CollaboratorError(message))
  }

  /**
   * What analyze_elements_for_action returns for the reply to its request:
   * the decoded reply, or the recovery from the exception that the request
   * or the decoding raised.  `decode` gives json.loads's error message on
   * failure.
   */
  function ElementsReply(stepDescription: string, reply: Reply, decode: string -> Result<ElementChoice, string>)
    : (r: Result<ElementChoice, Error>)
    ensures reply.Raised? ==> r == Recover(stepDescription, reply.message)
    ensures reply.Replied? && decode(reply.content).Success? ==> r == Success(decode(reply.content).value)
    ensures reply.Replied? && decode(reply.content).Failure? ==> r == Recover(stepDescription, decode(reply.content).error)
  {
    match reply
    case Raised(message) => Recover(stepDescription, message)
    case Replied(content) =>
      match decode(content)
      case Success(choice) => Success(choice)
      case Failure(message) => Recover(stepDescription, message)
  }

  /** analyze_elements_for_action (lines 181-244); the request sees only the filtered elements. */
  method AnalyzeElementsForAction(stepDescription: string, pageElements: seq<(Category, seq<PageElement>)>,
                                  request: Buckets -> Reply, decode: string -> Result<ElementChoice, string>)
    returns (r: Result<ElementChoice, Error>)
    ensures r == ElementsReply(stepDescription, request(Filtered(pageElements, Terms(stepDescription))), decode)
  {
    var filtered := FilterRelevantElements(pageElements, stepDescription);
    var reply := request(filtered);
    r := ElementsReply(stepDescription, reply, decode);
  }

  /** The canned search value carries no surrounding quotes or whitespace-then-quote residue at its ends. */
  lemma SearchValueUnquoted(stepDescription: string)
    ensures var v := SearchBoxChoice(stepDescription).inputValue.value;
      v == [] || (v[0] != '\'' && v[|v| - 1] != '\'')
  {
    var v := Strip(ReplaceAll(ReplaceAll(Lower(stepDescription), "search for", ""), "in the search bar", ""));
    TrimBothEnds(v, x => x == '\'');
  }
}
