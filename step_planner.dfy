/**
 * How src/web_automation_tool.py turns a step description into an action
 * plan: the rule-based planner used when the language model cannot help
 * (fallback_step_analysis) and the reply clean-up of analyze_step.  The
 * model's reply and the JSON decoder are parameters.
 */
module StepPlanner {
  import opened Wrappers
  import opened Text
  import opened Assistant

  /** The element_identification object of a plan. */
  datatype Identification = Identification(
    primaryAttributes: seq<string>,
    textContent: string,
    contextualHints: seq<string>,
    fallbackStrategies: Option<seq<string>>)

  /**
   * An action plan.  `actionType` is None for a decoded reply without an
   * "action_type" key; `inputValue` is None when the plan has no
   * "input_value" key.
   */
  datatype ActionPlan = ActionPlan(
    actionType: Option<string>,
    elementType: string,
    identification: Identification,
    inputValue: Option<string>,
    waitConditions: seq<string>,
    expectedResult: string,
    fallbackStrategies: seq<string>)

  const Standard: seq<string> := ["id", "name", "type"]

  /** Lines 307-320. */
  const NavigatePlan := ActionPlan(
    Some("navigate"), "browser", Identification([], "", ["navigation"], None),
    Some(""), ["complete"], "page loads successfully", [])

  /** Lines 323-337. */
  function ClickPlan(target: string): ActionPlan {
    ActionPlan(
      Some("click"), "any", Identification(Standard, target, [target, "clickable"], None),
      Some(""), ["clickable"], "element is clicked", ["try by text", "try by aria-label"])
  }

  /** Lines 346-358. */
  function InputPlan(value: string): ActionPlan {
    ActionPlan(
      Some("input"), "input", Identification(Standard, "", ["input", "textbox", "field"], None),
      Some(value), ["visible", "enabled"], "text is entered successfully",
      ["try by placeholder", "try by label text"])
  }

  /** Lines 361-373: no "input_value" key, and a fallback list inside the identification. */
  function DefaultPlan(step: string): ActionPlan {
    ActionPlan(
      Some("click"), "any", Identification(Standard, step, ["interactive"], Some(["try all available locators"])),
      None, ["visible", "enabled"], "action completed", ["try alternative elements"])
  }

  /** Line 324: the click target, with every "click", then every "on", then every "the" removed. */
  function ClickTarget(step: string): string {
    Strip(ReplaceAll(ReplaceAll(ReplaceAll(step, "click", ""), "on", ""), "the", ""))
  }

  /**
   * Lines 343-344: group 1 of the leftmost match of `'([^']*)'`, or "" when
   * there is none.  The leftmost match opens at the first quote and closes at
   * the next one.
   */
  function FirstQuoted(s: string): (v: string)
    ensures '\'' !in v
  {
    var i := FindChar(s, '\'', 0);
    if i == |s| then ""
    else
      var j := FindChar(s, '\'', i + 1);
      if j == |s| then ""
      else s[i + 1..j]
  }

  predicate IsInputStep(step: string) {
    Contains(step, "enter") || Contains(step, "type") || Contains(step, "input")
  }

  /** fallback_step_analysis (lines 300-373), on the lowered step. */
  function FallbackStepAnalysis(stepDescription: string): (plan: ActionPlan)
    ensures plan.actionType in {Some("navigate"), Some("click"), Some("input")}
    ensures plan.actionType == Some("navigate") <==> StartsWith(Lower(stepDescription), "navigate to")
    ensures plan.actionType == Some("input")
        <==> !StartsWith(Lower(stepDescription), "navigate to") && !StartsWith(Lower(stepDescription), "click")
             && IsInputStep(Lower(stepDescription))
    ensures plan.actionType == Some("navigate") ==> plan.waitConditions == ["complete"]
    ensures plan.actionType == Some("input") ==> plan.inputValue == Some(FirstQuoted(Lower(stepDescription)))
  {
    var step := Lower(stepDescription);
    if StartsWith(step, "navigate to") then NavigatePlan
    else if StartsWith(step, "click") then ClickPlan(ClickTarget(step))
    else if IsInputStep(step) then InputPlan(FirstQuoted(step))
    else DefaultPlan(step)
  }

  /** A click plan names its target, and the default plan the whole lowered step. */
  lemma ClickPlanTargets(stepDescription: string)
    requires !StartsWith(Lower(stepDescription), "navigate to")
    ensures StartsWith(Lower(stepDescription), "click")
        ==> FallbackStepAnalysis(stepDescription).identification.textContent == ClickTarget(Lower(stepDescription))
    ensures !StartsWith(Lower(stepDescription), "click") && !IsInputStep(Lower(stepDescription))
        ==> FallbackStepAnalysis(stepDescription) == DefaultPlan(Lower(stepDescription))
  {
  }

  /** The planner ignores letter case. */
  lemma FallbackIgnoresCase(stepDescription: string)
    ensures FallbackStepAnalysis(Lower(stepDescription)) == FallbackStepAnalysis(stepDescription)
  {
    LowerIdempotent(stepDescription);
  }

  /** The quoted value is the text between the first two quotes of the step. */
  lemma FirstQuotedIsFirstSegment(before: string, value: string, after: string)
    requires '\'' !in before && '\'' !in value
    ensures FirstQuoted(before + "'" + value + "'" + after) == value
  {
    var s := before + "'" + value + "'" + after;
    assert forall k :: 0 <= k < |before| ==> s[k] == before[k];
    assert s[|before|] == '\'';
    assert forall k :: |before| < k < |before| + 1 + |value| ==> s[k] == value[k - |before| - 1];
    assert s[|before| + 1 + |value|] == '\'';
    assert s[|before| + 1..|before| + 1 + |value|] == value;
  }

  /** With fewer than two quotes there is no match, and the value is empty. */
  lemma FirstQuotedWithoutPair(s: string)
    requires forall i, j :: 0 <= i < j < |s| && s[i] == '\'' ==> s[j] != '\''
    ensures FirstQuoted(s) == ""
  {
  }

  lemma LowerAppend(a: string, b: string)
    ensures Lower(a + b) == Lower(a) + Lower(b)
  {
  }

  /** A step such as test_case.py:12 is planned as navigation, whatever follows "navigate to". */
  lemma NavigateStepIsNavigation(rest: string)
    ensures FallbackStepAnalysis("navigate to" + rest) == NavigatePlan
  {
    LowerAppend("navigate to", rest);
    assert Lower("navigate to") == "navigate to";
    assert Lower("navigate to" + rest)[..11] == "navigate to";
  }

  /**
   * A step such as test_case.py:14 or 17 is planned as input of the quoted
   * text, lowered: the planner works on the lowered step.
   */
  lemma EnterStepTypesQuotedValue(value: string, rest: string)
    requires '\'' !in value
    ensures FallbackStepAnalysis("Enter '" + value + "'" + rest) == InputPlan(Lower(value))
  {
    var step := "Enter '" + value + "'" + rest;
    assert step == "Enter " + "'" + value + "'" + rest;
    LowerAppend("Enter ", "'" + value + "'" + rest);
    LowerAppend("'", value + "'" + rest);
    LowerAppend(value, "'" + rest);
    LowerAppend("'", rest);
    assert Lower("Enter ") == "enter ";
    assert Lower("'") == "'";
    var lowered := Lower(step);
    assert lowered == "enter " + "'" + Lower(value) + "'" + Lower(rest);
    FirstQuotedIsFirstSegment("enter ", Lower(value), Lower(rest));
    assert lowered[..5] == "enter";
    ContainsAt(lowered, "enter", 0);
    DiffersAt(lowered, "navigate to", 0);
    DiffersAt(lowered, "click", 0);
  }

  /** Line 287: both fence markers removed, outside whitespace trimmed. */
  function StripFences(text: string): string {
    Strip(ReplaceAll(ReplaceAll(Strip(text), "```json", ""), "```", ""))
  }

  const Fence := "```"

  /** A string that does not begin with a backtick keeps that after the fences are removed. */
  lemma NoLeadingTick(s: string)
    requires !StartsWith(s, "`")
    ensures !StartsWith(ReplaceAll(s, Fence, ""), "`")
  {
    if |s| >= 3 {
      assert s[..3][0] == s[0];
      assert s[..1] == [s[0]];
    } else if s != [] {
      assert s[..1] == [s[0]];
    }
  }

  /** Fewer than two leading backticks stay fewer than two. */
  lemma NoLeadingTickPair(s: string)
    requires !StartsWith(s, "``")
    ensures !StartsWith(ReplaceAll(s, Fence, ""), "``")
  {
    var r := ReplaceAll(s, Fence, "");
    if s != [] {
      if |s| >= 3 {
        assert s[..3][..2] == s[..2];
      }
      assert r == [s[0]] + ReplaceAll(s[1..], Fence, "");
      if s[0] == '`' {
        assert !StartsWith(s[1..], "`") by {
          if |s| >= 2 {
            assert s[..2] == [s[0], s[1]];
            assert s[1..][..1] == [s[1]];
          }
        }
        NoLeadingTick(s[1..]);
        var rest := ReplaceAll(s[1..], Fence, "");
        if |r| >= 2 {
          assert r[..2] == [r[0], r[1]] && r[1] == rest[0];
          assert rest[..1] == [rest[0]];
        }
      } else if |r| >= 2 {
        assert r[..2][0] == s[0];
      }
    }
  }

  /** Removing the fences never leaves one at the front. */
  lemma {:induction false} NoLeadingFence(s: string)
    ensures !StartsWith(ReplaceAll(s, Fence, ""), Fence)
    decreases |s|
  {
    var r := ReplaceAll(s, Fence, "");
    if |s| >= 3 && s[..3] == Fence {
      NoLeadingFence(s[3..]);
    } else if s != [] {
      assert r == [s[0]] + ReplaceAll(s[1..], Fence, "");
      if s[0] == '`' {
        assert !StartsWith(s[1..], "``") by {
          if |s| >= 3 {
            assert s[..3] == [s[0]] + s[1..][..2];
          }
        }
        NoLeadingTickPair(s[1..]);
        var rest := ReplaceAll(s[1..], Fence, "");
        if |r| >= 3 {
          assert r[..3] == [s[0]] + rest[..2];
        }
      } else if |r| >= 3 {
        assert r[..3][0] == s[0];
      }
    }
  }

  lemma ContainsPastHead(c: char, t: string, needle: string)
    requires Contains([c] + t, needle) && !StartsWith([c] + t, needle)
    ensures Contains(t, needle)
  {
    var i :| 0 <= i <= |[c] + t| && StartsWith(([c] + t)[i..], needle);
    assert i != 0;
    assert ([c] + t)[i..] == t[i - 1..];
  }

  /** After the second replace no fence remains anywhere, even where removing "```json" joined backticks. */
  lemma {:induction false} NoFenceRemains(s: string)
    ensures !Contains(ReplaceAll(s, Fence, ""), Fence)
    decreases |s|
  {
    var r := ReplaceAll(s, Fence, "");
    if |s| >= 3 && s[..3] == Fence {
      assert r == "" + ReplaceAll(s[3..], Fence, "");
      NoFenceRemains(s[3..]);
      assert r == ReplaceAll(s[3..], Fence, "");
    } else if s != [] {
      NoFenceRemains(s[1..]);
      NoLeadingFence(s);
      assert r == [s[0]] + ReplaceAll(s[1..], Fence, "");
      if Contains(r, Fence) {
        ContainsPastHead(s[0], ReplaceAll(s[1..], Fence, ""), Fence);
      }
    } else {
      assert !StartsWith(r[0..], Fence);
    }
  }

  lemma NotContainedInSuffix(s: string, k: nat, needle: string)
    requires k <= |s| && !Contains(s, needle)
    ensures !Contains(s[k..], needle)
  {
  }

  lemma NotContainedInPrefix(s: string, k: nat, needle: string)
    requires k <= |s| && !Contains(s, needle)
    ensures !Contains(s[..k], needle)
  {
    forall i | 0 <= i <= k && |needle| <= k - i
      ensures s[..k][i..][..|needle|] == s[i..][..|needle|]
    {
    }
  }

  /** The text handed to the JSON decoder never contains a code-fence marker. */
  lemma StripFencesRemovesFences(text: string)
    ensures !Contains(StripFences(text), Fence)
  {
    var r := ReplaceAll(ReplaceAll(Strip(text), "```json", ""), Fence, "");
    NoFenceRemains(ReplaceAll(Strip(text), "```json", ""));
    var t := TrimStart(r, IsPySpace);
    TrimStartIsSuffix(r, IsPySpace);
    NotContainedInSuffix(r, |r| - |t|, Fence);
    TrimEndIsPrefix(t, IsPySpace);
    NotContainedInPrefix(t, |TrimEnd(t, IsPySpace)|, Fence);
  }

  /**
   * analyze_step (lines 247-298): the decoded reply, or the rule-based plan
   * when the request raised or the cleaned reply is not valid JSON.
   */
  function AnalyzeStep(stepDescription: string, reply: Reply, decode: string -> Option<ActionPlan>): (plan: ActionPlan)
    ensures reply.Raised? ==> plan == FallbackStepAnalysis(stepDescription)
    ensures reply.Replied? && decode(StripFences(reply.content)).Some? ==>
      plan == decode(StripFences(reply.content)).value
  {
    match reply
    case Raised(_) => FallbackStepAnalysis(stepDescription)
    case Replied(content) =>
      var text := StripFences(content);
      StripFencesRemovesFences(content);
      match decode(text)
      case Some(decoded) => decoded
      case None => FallbackStepAnalysis(stepDescription)
  }

  /** A reply that does not decode gives exactly the rule-based plan. */
  lemma UndecodableReplyFallsBack(stepDescription: string, content: string, decode: string -> Option<ActionPlan>)
    requires decode(StripFences(content)).None?
    ensures AnalyzeStep(stepDescription, Replied(content), decode) == FallbackStepAnalysis(stepDescription)
  {
  }
}
