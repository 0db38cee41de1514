/**
 * What the rest of the client sees of the provider call (utils/ai_provider.py):
 * a reply text, or the failure message reported in-band as "Error: ...".
 */
module AiProvider {
  import opened Config

  /** What the provider call produced: the reply's text, or the text of the exception raised. */
  datatype Outcome = Reply(text: string) | Failure(message: string)

  /** The string `get_claude_response` returns: failures are not raised but become text. */
  function ReplyText(o: Outcome): (r: string)
    ensures o.Reply? ==> r == o.text
    ensures o.Failure? ==> |r| == 7 + |o.message| && r[..7] == "Error: " && r[7..] == o.message
  {
    match o
    case Reply(t) => t
    case Failure(m) => "Error: " + m
  }

  /** A reported failure is never mistaken for the thinking placeholder. */
  lemma FailureIsNotPlaceholder(m: string)
    ensures ReplyText(Failure(m)) != THINKING_PLACEHOLDER
  {
    assert ReplyText(Failure(m))[0] == 'E';
    assert THINKING_PLACEHOLDER[0] == '[';
  }
}
