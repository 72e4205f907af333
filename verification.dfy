/**
 * verify_element_match of src/web_automation_tool.py (lines 419-451): the
 * language model is asked whether a found element is the intended target,
 * and the element is accepted only on a decoded reply whose "is_match" is
 * true and whose "confidence" is above 0.7.  Every failure on the way (the
 * request raising, a reply that is not JSON, a missing key) rejects.
 */
module Verification {
  import opened Wrappers
  import opened Assistant

  /** The decoded reply: a missing "is_match" or "confidence" key is None. */
  datatype Verdict = Verdict(isMatch: Option<bool>, confidence: Option<real>)

  const Threshold: real := 0.7

  /** `result["is_match"] and result["confidence"] > 0.7`, False on any KeyError. */
  function Accepts(v: Verdict): (ok: bool)
    ensures ok ==> v.confidence.Some? && v.confidence.value > Threshold
    ensures v.isMatch != Some(true) ==> !ok
  {
    match v.isMatch
    case None => false
    case Some(isMatch) => isMatch && v.confidence.Some? && v.confidence.value > Threshold
  }

  /** The JSON decoder of the reply is a parameter. */
  function VerifyElementMatch(reply: Reply, decode: string -> Option<Verdict>): (ok: bool)
    ensures ok <==> reply.Replied? && decode(reply.content).Some? && Accepts(decode(reply.content).value)
  {
    match reply
    case Raised(_) => false
    case Replied(content) =>
      match decode(content)
      case None => false
      case Some(v) => Accepts(v)
  }

  /** A positive verdict is accepted exactly when its confidence is strictly above the threshold. */
  lemma PositiveVerdictThreshold(confidence: real)
    ensures Accepts(Verdict(Some(true), Some(confidence))) <==> confidence > Threshold
    ensures !Accepts(Verdict(Some(true), Some(Threshold)))
  {
  }

  /** More confidence never turns an acceptance into a rejection. */
  lemma AcceptsMonotone(v: Verdict, confidence: real)
    requires Accepts(v) && v.confidence.value <= confidence
    ensures Accepts(v.(confidence := Some(confidence)))
  {
  }

  /** A request that raises, or a reply that does not decode, never accepts an element. */
  lemma FailsClosed(reply: Reply, decode: string -> Option<Verdict>)
    requires reply.Raised? || decode(reply.content).None?
    ensures !VerifyElementMatch(reply, decode)
  {
  }
}
