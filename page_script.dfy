/**
 * The JavaScript that get_page_elements runs in the page
 * (src/web_automation_tool.py:100-149): the XPath it writes for each element
 * and the text node it reports as the element's preceding text.
 *
 * The DOM is given as values: an element carries the attributes the script
 * reads, and the chain of levels from the element up to the root, each level
 * holding the child nodes of its parent and the element's position among
 * them (JavaScript's `===` identity becomes that position).
 */
module PageScript {
  import opened Wrappers
  import opened Text

  /** What the script distinguishes about a node: nodeType 3, nodeType 1 with its tagName, anything else. */
  datatype DomNode = TextNode(content: string) | ElementNode(tag: string) | OtherNode

  /** One element on the way up: its tagName, whether it is document.body, its parent's childNodes and its index there. */
  datatype Level = Level(tag: string, isBody: bool, siblings: seq<DomNode>, position: nat)

  /** The attributes generateXPath reads; JavaScript's null and undefined are the empty string, falsy like it. */
  datatype DomElement = DomElement(
    id: string, ariaLabel: string, placeholder: string, innerText: string,
    elementType: string, name: string, className: string,
    ancestry: seq<Level>)

  /** The number of element siblings with the given tag. */
  function CountTag(nodes: seq<DomNode>, tag: string): (n: nat)
    ensures n <= |nodes|
    decreases |nodes|
  {
    if nodes == [] then 0
    else CountTag(nodes[..|nodes| - 1], tag) + (if nodes[|nodes| - 1] == ElementNode(tag) then 1 else 0)
  }

  /**
   * getFullXPath (lines 133-149).  None when the walk leaves the document
   * without meeting the HTML element, or when the element is not among its
   * parent's children: the script then throws or returns undefined.
   */
  function FullXPath(ancestry: seq<Level>): Option<string>
    decreases |ancestry|
  {
    if ancestry == [] then None
    else
      var here := ancestry[0];
      if here.tag == "HTML" then Some("/HTML[1]")
      else if here.isBody then Some("/HTML[1]/BODY[1]")
      else if here.position >= |here.siblings| then None
      else match FullXPath(ancestry[1..])
        case None => None
        case Some(parent) =>
          Some(parent + "/" + here.tag + "[" + DecimalString(CountTag(here.siblings[..here.position], here.tag) + 1) + "]")
  }

  /** The loop of lines 142-148: the element's 0-based index among its same-tag siblings. */
  method SiblingIndex(siblings: seq<DomNode>, position: nat, tag: string) returns (found: bool, ix: nat)
    ensures found <==> position < |siblings|
    ensures found ==> ix == CountTag(siblings[..position], tag)
  {
    ix := 0;
    for i := 0 to |siblings|
      invariant i <= position
      invariant ix == CountTag(siblings[..i], tag)
    {
      if i == position {
        return true, ix;
      }
      assert siblings[..i + 1][..i] == siblings[..i];
      if siblings[i] == ElementNode(tag) {
        ix := ix + 1;
      }
    }
    found := false;
  }

  /** getFullXPath, walking up one level per call. */
  method GetFullXPath(ancestry: seq<Level>) returns (path: Option<string>)
    ensures path == FullXPath(ancestry)
    decreases |ancestry|
  {
    if ancestry == [] {
      return None;
    }
    var here := ancestry[0];
    if here.tag == "HTML" {
      return Some("/HTML[1]");
    }
    if here.isBody {
      return Some("/HTML[1]/BODY[1]");
    }
    var found, ix := SiblingIndex(here.siblings, here.position, here.tag);
    if !found {
      return None;
    }
    var parent := GetFullXPath(ancestry[1..]);
    if parent.None? {
      return None;
    }
    path := Some(parent.value + "/" + here.tag + "[" + DecimalString(ix + 1) + "]");
  }

  /** Every structural path is rooted at the HTML element. */
  lemma {:induction false} FullXPathIsRooted(ancestry: seq<Level>)
    requires FullXPath(ancestry).Some?
    ensures StartsWith(FullXPath(ancestry).value, "/HTML[1]")
    decreases |ancestry|
  {
    var here := ancestry[0];
    if here.tag != "HTML" && !here.isBody {
      FullXPathIsRooted(ancestry[1..]);
      var parent := FullXPath(ancestry[1..]).value;
      StartsWithAppend(parent, "/" + here.tag + "[" + DecimalString(CountTag(here.siblings[..here.position], here.tag) + 1) + "]", "/HTML[1]");
    } else if here.tag != "HTML" {
      assert "/HTML[1]/BODY[1]"[..8] == "/HTML[1]";
    }
  }

  /** Two same-tag siblings under the same parent get different structural paths. */
  lemma SiblingsGetDistinctPaths(a: Level, b: Level, above: seq<Level>)
    requires a.tag == b.tag && a.tag != "HTML" && !a.isBody && !b.isBody
    requires a.position < |a.siblings| && b.position < |b.siblings|
    requires CountTag(a.siblings[..a.position], a.tag) != CountTag(b.siblings[..b.position], b.tag)
    requires FullXPath([a] + above).Some? && FullXPath([b] + above).Some?
    ensures FullXPath([a] + above) != FullXPath([b] + above)
  {
    assert ([a] + above)[1..] == above && ([b] + above)[1..] == above;
    var parent := FullXPath(above).value;
    var head := parent + "/" + a.tag + "[";
    var da := DecimalString(CountTag(a.siblings[..a.position], a.tag) + 1);
    var db := DecimalString(CountTag(b.siblings[..b.position], b.tag) + 1);
    assert FullXPath([a] + above).value == head + da + "]";
    assert FullXPath([b] + above).value == head + db + "]";
    if head + da + "]" == head + db + "]" {
      assert da == (head + da + "]")[|head|..|head| + |da|];
      assert db == (head + db + "]")[|head|..|head| + |db|];
      DecimalStringInjective(CountTag(a.siblings[..a.position], a.tag) + 1, CountTag(b.siblings[..b.position], b.tag) + 1);
    }
  }

  /** Which of generateXPath's rules (lines 108-131) applies, in its order. */
  datatype XPathKind = IdPath | AriaLabelPath | PlaceholderPath | TextPath | PredicatePath | StructuralPath | Unrecognised

  const IdPrefix := "//*[@id=\""
  const AriaLabelPrefix := "//*[@aria-label=\""
  const PlaceholderPrefix := "//*[@placeholder=\""
  const TextPrefix := "//*[text()=\""
  const PredicatePrefix := "//*["
  const QuoteClose := "\"]"

  /** The attribute predicates of lines 123-125, in push order. */
  function Predicates(e: DomElement): seq<string> {
    (if e.elementType != "" then ["@type=\"" + e.elementType + "\""] else [])
    + (if e.name != "" then ["@name=\"" + e.name + "\""] else [])
    + (if e.className != "" then ["contains(@class, \"" + e.className + "\")"] else [])
  }

  function Kind(e: DomElement): XPathKind {
    if e.id != "" then IdPath
    else if e.ariaLabel != "" then AriaLabelPath
    else if e.placeholder != "" then PlaceholderPath
    else if JsTrim(e.innerText) != "" then TextPath
    else if Predicates(e) != [] then PredicatePath
    else StructuralPath
  }

  /** generateXPath (lines 108-131); None where getFullXPath fails. */
  function XPathFor(e: DomElement): Option<string> {
    match Kind(e)
      case IdPath => Some(IdPrefix + e.id + QuoteClose)
      case AriaLabelPath => Some(AriaLabelPrefix + e.ariaLabel + QuoteClose)
      case PlaceholderPath => Some(PlaceholderPrefix + e.placeholder + QuoteClose)
      case TextPath => Some(TextPrefix + JsTrim(e.innerText) + QuoteClose)
      case PredicatePath => Some(PredicatePrefix + Join(Predicates(e), " and ") + "]")
      case _ => FullXPath(e.ancestry)
  }

  /** generateXPath as the script runs it, building the predicate list by pushes. */
  method GenerateXPath(e: DomElement) returns (xpath: Option<string>)
    ensures xpath == XPathFor(e)
  {
    if e.id != "" {
      return Some(IdPrefix + e.id + QuoteClose);
    }
    if e.ariaLabel != "" {
      return Some(AriaLabelPrefix + e.ariaLabel + QuoteClose);
    }
    if e.placeholder != "" {
      return Some(PlaceholderPrefix + e.placeholder + QuoteClose);
    }
    var text := JsTrim(e.innerText);
    if e.innerText != "" && text != "" {
      return Some(TextPrefix + text + QuoteClose);
    }
    var path: seq<string> := [];
    if e.elementType != "" {
      path := path + ["@type=\"" + e.elementType + "\""];
    }
    if e.name != "" {
      path := path + ["@name=\"" + e.name + "\""];
    }
    if e.className != "" {
      path := path + ["contains(@class, \"" + e.className + "\")"];
    }
    assert path == Predicates(e);
    if |path| > 0 {
      return Some(PredicatePrefix + Join(path, " and ") + "]");
    }
    xpath := GetFullXPath(e.ancestry);
  }

  /** Reads back which rule wrote an XPath, from its prefix alone. */
  function Classify(xpath: string): XPathKind {
    if StartsWith(xpath, IdPrefix) then IdPath
    else if StartsWith(xpath, AriaLabelPrefix) then AriaLabelPath
    else if StartsWith(xpath, PlaceholderPrefix) then PlaceholderPath
    else if StartsWith(xpath, TextPrefix) then TextPath
    else if StartsWith(xpath, PredicatePrefix) then PredicatePath
    else if StartsWith(xpath, "/HTML[1]") then StructuralPath
    else Unrecognised
  }

  /** The value between a single-attribute rule's prefix and its closing `"]`. */
  function QuotedValue(xpath: string, kind: XPathKind): string
    requires kind in {IdPath, AriaLabelPath, PlaceholderPath, TextPath}
  {
    var prefix := match kind
      case IdPath => IdPrefix
      case AriaLabelPath => AriaLabelPrefix
      case PlaceholderPath => PlaceholderPrefix
      case _ => TextPrefix;
    if |prefix| + 2 <= |xpath| then xpath[|prefix|..|xpath| - 2] else ""
  }

  lemma PrefixedValue(prefix: string, v: string)
    ensures StartsWith(prefix + v + QuoteClose, prefix)
    ensures (prefix + v + QuoteClose)[|prefix|..|prefix + v + QuoteClose| - 2] == v
  {
    assert (prefix + v + QuoteClose)[..|prefix|] == prefix;
  }

  /** The first predicate names type, name or class, never one of the single-attribute rules. */
  lemma PredicateBody(e: DomElement)
    requires Predicates(e) != []
    ensures var body := Join(Predicates(e), " and ") + "]";
      StartsWith(body, "@type=\"") || StartsWith(body, "@name=\"") || StartsWith(body, "contains(@class, \"")
  {
    var ps := Predicates(e);
    JoinStartsWithFirst(ps, " and ");
    StartsWithAppend(Join(ps, " and "), "]", ps[0]);
    var body := Join(ps, " and ") + "]";
    if e.elementType != "" {
      assert ps[0] == "@type=\"" + e.elementType + "\"";
      assert ps[0][..7] == "@type=\"";
      assert body[..7] == ps[0][..7];
    } else if e.name != "" {
      assert ps[0] == "@name=\"" + e.name + "\"";
      assert ps[0][..7] == "@name=\"";
      assert body[..7] == ps[0][..7];
    } else {
      assert ps[0] == "contains(@class, \"" + e.className + "\")";
      assert ps[0][..18] == "contains(@class, \"";
      assert body[..18] == ps[0][..18];
    }
  }

  /** An XPath written with one of the single-attribute rules is read back as that rule. */
  lemma ClassifySingleAttribute(kind: XPathKind, prefix: string, v: string)
    requires kind in {IdPath, AriaLabelPath, PlaceholderPath, TextPath}
    requires prefix == match kind
      case IdPath => IdPrefix
      case AriaLabelPath => AriaLabelPrefix
      case PlaceholderPath => PlaceholderPrefix
      case _ => TextPrefix
    ensures Classify(prefix + v + QuoteClose) == kind
    ensures QuotedValue(prefix + v + QuoteClose, kind) == v
  {
    var x := prefix + v + QuoteClose;
    PrefixedValue(prefix, v);
    assert x[..|prefix|] == prefix;
    assert x[4] == prefix[4] && x[5] == prefix[5];
    if kind != IdPath {
      DiffersAt(x, IdPrefix, 5);
    }
    if kind == PlaceholderPath || kind == TextPath {
      DiffersAt(x, AriaLabelPrefix, if kind == TextPath then 4 else 5);
    }
    if kind == TextPath {
      DiffersAt(x, PlaceholderPrefix, 4);
    }
  }

  lemma ClassifyPredicateBody(body: string)
    requires StartsWith(body, "@type=\"") || StartsWith(body, "@name=\"") || StartsWith(body, "contains(@class, \"")
    ensures Classify(PredicatePrefix + body) == PredicatePath
  {
    var x := PredicatePrefix + body;
    assert x[..4] == PredicatePrefix;
    assert x[4] == body[0] && x[5] == body[1];
    if body[0] == '@' {
      DiffersAt(x, IdPrefix, 5);
      DiffersAt(x, AriaLabelPrefix, 5);
      DiffersAt(x, PlaceholderPrefix, 5);
    } else {
      DiffersAt(x, IdPrefix, 4);
      DiffersAt(x, AriaLabelPrefix, 4);
      DiffersAt(x, PlaceholderPrefix, 4);
    }
    DiffersAt(x, TextPrefix, 4);
  }

  lemma ClassifyPredicates(e: DomElement)
    requires Predicates(e) != []
    ensures Classify(PredicatePrefix + Join(Predicates(e), " and ") + "]") == PredicatePath
  {
    PredicateBody(e);
    var body := Join(Predicates(e), " and ") + "]";
    ClassifyPredicateBody(body);
    assert PredicatePrefix + Join(Predicates(e), " and ") + "]" == PredicatePrefix + body;
  }

  lemma ClassifyStructural(ancestry: seq<Level>)
    requires FullXPath(ancestry).Some?
    ensures Classify(FullXPath(ancestry).value) == StructuralPath
  {
    FullXPathIsRooted(ancestry);
    var x := FullXPath(ancestry).value;
    assert x[..8] == "/HTML[1]";
    assert x[1] == 'H';
    DiffersAt(x, IdPrefix, 1);
    DiffersAt(x, AriaLabelPrefix, 1);
    DiffersAt(x, PlaceholderPrefix, 1);
    DiffersAt(x, TextPrefix, 1);
    DiffersAt(x, PredicatePrefix, 1);
  }

  /**
   * The rule that wrote an element's XPath can be read back from the XPath,
   * and for the single-attribute rules so can the attribute value: no two
   * rules produce the same text.
   */
  lemma XPathRecordsItsRule(e: DomElement)
    requires XPathFor(e).Some?
    ensures Classify(XPathFor(e).value) == Kind(e)
    ensures Kind(e) == IdPath ==> QuotedValue(XPathFor(e).value, IdPath) == e.id
    ensures Kind(e) == AriaLabelPath ==> QuotedValue(XPathFor(e).value, AriaLabelPath) == e.ariaLabel
    ensures Kind(e) == PlaceholderPath ==> QuotedValue(XPathFor(e).value, PlaceholderPath) == e.placeholder
    ensures Kind(e) == TextPath ==> QuotedValue(XPathFor(e).value, TextPath) == JsTrim(e.innerText)
  {
    match Kind(e)
    case IdPath => ClassifySingleAttribute(IdPath, IdPrefix, e.id);
    case AriaLabelPath => ClassifySingleAttribute(AriaLabelPath, AriaLabelPrefix, e.ariaLabel);
    case PlaceholderPath => ClassifySingleAttribute(PlaceholderPath, PlaceholderPrefix, e.placeholder);
    case TextPath => ClassifySingleAttribute(TextPath, TextPrefix, JsTrim(e.innerText));
    case PredicatePath => ClassifyPredicates(e);
    case StructuralPath => ClassifyStructural(e.ancestry);
  }

  /** A sibling that is a text node with only whitespace, which getPrecedingText skips. */
  predicate BlankText(n: DomNode) {
    n.TextNode? && JsTrim(n.content) == ""
  }

  /**
   * getPrecedingText (lines 100-106) on the element's preceding siblings in
   * document order, so that previousSibling is the last one.
   */
  function PrecedingText(preceding: seq<DomNode>): string
    decreases |preceding|
  {
    if preceding == [] then ""
    else
      var last := preceding[|preceding| - 1];
      if BlankText(last) then PrecedingText(preceding[..|preceding| - 1])
      else if last.TextNode? then JsTrim(last.content)
      else ""
  }

  /** getPrecedingText's walk, one previousSibling at a time. */
  method GetPrecedingText(preceding: seq<DomNode>) returns (text: string)
    ensures text == PrecedingText(preceding)
  {
    var i := |preceding|;
    assert preceding[..i] == preceding;
    while i > 0 && BlankText(preceding[i - 1])
      invariant 0 <= i <= |preceding|
      invariant PrecedingText(preceding) == PrecedingText(preceding[..i])
      decreases i
    {
      assert preceding[..i][..i - 1] == preceding[..i - 1];
      assert preceding[..i][i - 1] == preceding[i - 1];
      i := i - 1;
    }
    if i > 0 {
      assert preceding[..i][i - 1] == preceding[i - 1];
    }
    if i > 0 && preceding[i - 1].TextNode? {
      text := JsTrim(preceding[i - 1].content);
    } else {
      text := "";
    }
  }

  /** Node j is the nearest sibling that is not blank text, and it is a text node with content. */
  predicate NearestText(preceding: seq<DomNode>, j: int) {
    0 <= j < |preceding| && preceding[j].TextNode? && JsTrim(preceding[j].content) != ""
    && forall k :: j < k < |preceding| ==> BlankText(preceding[k])
  }

  /** The reported text is the trimmed content of the nearest non-blank text sibling. */
  lemma {:induction false} PrecedingTextIsNearest(preceding: seq<DomNode>, j: int)
    requires NearestText(preceding, j)
    ensures PrecedingText(preceding) == JsTrim(preceding[j].content)
    decreases |preceding|
  {
    var init := preceding[..|preceding| - 1];
    if j < |preceding| - 1 {
      assert NearestText(init, j) by {
        assert forall k :: j < k < |init| ==> init[k] == preceding[k];
      }
      PrecedingTextIsNearest(init, j);
    }
  }

  lemma NearestPastBlank(init: seq<DomNode>, last: DomNode, j: int)
    requires NearestText(init, j) && BlankText(last)
    ensures NearestText(init + [last], j)
  {
    var p := init + [last];
    forall k | j < k < |p|
      ensures BlankText(p[k])
    {
      if k < |init| {
        assert p[k] == init[k];
        assert BlankText(init[k]);
      } else {
        assert p[k] == last;
      }
    }
  }

  /** Conversely, text is reported only when such a sibling exists: an element or comment in between hides it. */
  lemma {:induction false} PrecedingTextHasSource(preceding: seq<DomNode>) returns (j: int)
    requires PrecedingText(preceding) != ""
    ensures NearestText(preceding, j)
    decreases |preceding|
  {
    var n := |preceding|;
    var init := preceding[..n - 1];
    var last := preceding[n - 1];
    assert init + [last] == preceding;
    if BlankText(last) {
      j := PrecedingTextHasSource(init);
      NearestPastBlank(init, last, j);
    } else {
      j := n - 1;
    }
  }
}
