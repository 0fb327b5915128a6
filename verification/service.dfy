/** The executive-summary service (services/geminiService.ts). The model
    call itself is outside the model: its reply is a parameter. What is
    modelled is how the service turns the API key and that reply into its
    result: it throws only when the key is missing, and otherwise always
    resolves, substituting fixed fallback texts for an empty reply or a
    failed call. */
module SummaryService {
  import opened Types

  /** What the model call produced: a response whose `text` may be
      `undefined` (`None`) or empty, or an exception. */
  datatype Reply = Replied(text: Option<string>) | CallFailed

  /** How the service's promise settles. */
  datatype Outcome = Resolved(summary: string) | Threw(message: string)

  const MissingKeyMessage: string := "API Key is missing. Please ensure it is set in the environment."
  const EmptyReplyText: string := "Failed to generate summary."
  const CallFailedText: string := "Error generating summary. Please check your data and try again."

  /** `process.env.API_KEY` is truthy: set and nonempty. */
  predicate HasKey(apiKey: Option<string>)
  {
    apiKey.Some? && apiKey.value != ""
  }

  /** `response.text` is truthy: present and nonempty. */
  predicate HasText(reply: Reply)
  {
    reply.Replied? && reply.text.Some? && reply.text.value != ""
  }

  /** `generateExecutiveSummary`. */
  function GenerateExecutiveSummary(apiKey: Option<string>, reply: Reply): (r: Outcome)
    ensures r.Threw? <==> !HasKey(apiKey)
    ensures r.Threw? ==> r.message == MissingKeyMessage
    ensures r.Resolved? ==> r.summary != ""
    ensures r.Resolved? && HasText(reply) ==> r.summary == reply.text.value
    ensures r.Resolved? && !HasText(reply) ==> r.summary in {EmptyReplyText, CallFailedText}
  {
    if apiKey.None? || apiKey.value == "" then Threw(MissingKeyMessage)
    else
      match reply
      case CallFailed => Resolved(CallFailedText)
      case Replied(text) =>
        if text.Some? && text.value != "" then Resolved(text.value) else Resolved(EmptyReplyText)
  }

  /** With a key, a failed call and an empty reply are told apart by the
      fallback text, and neither can be mistaken for a reply that happens
      to differ from both. */
  lemma FallbacksDistinguishFailures(apiKey: Option<string>, reply: Reply)
    requires HasKey(apiKey)
    ensures GenerateExecutiveSummary(apiKey, reply) == Resolved(CallFailedText) <==>
      reply.CallFailed? || (HasText(reply) && reply.text.value == CallFailedText)
    ensures GenerateExecutiveSummary(apiKey, reply) == Resolved(EmptyReplyText) <==>
      (reply.Replied? && !HasText(reply)) || (HasText(reply) && reply.text.value == EmptyReplyText)
  {
    assert EmptyReplyText != CallFailedText by {
      assert |EmptyReplyText| != |CallFailedText|;
    }
  }
}
