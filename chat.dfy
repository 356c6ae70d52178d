/** The chat history of the video feed: a newest-first sequence of messages. */
module Chat {
  import opened Base

  datatype Message = Message(sender: string, text: string)

  const UserSender: string := "You"
  const AiSender: string := "BlinkAI"
  const NoReplyText: string := "No reply from AI."
  const ErrorText: string := "Error contacting AI."

  /** How the `/ask_ai` request ended: a response whose `reply` field may be missing, or an error (including the 30 s timeout). */
  datatype Outcome = Response(reply: Option<string>) | Failure

  /** `prev => [m, ...prev]`: the new message first, the older ones unchanged behind it. */
  function Prepend(history: seq<Message>, m: Message): (r: seq<Message>)
    ensures |r| == |history| + 1 && r[0] == m && r[1..] == history
  {
    [m] + history
  }

  /** The text of the assistant entry that completes a send. */
  function ReplyText(o: Outcome): (r: string)
    ensures o.Response? && TruthyString(o.reply) ==> r == o.reply.value
    ensures o.Response? && !TruthyString(o.reply) ==> r == NoReplyText
    ensures o.Failure? ==> r == ErrorText
  {
    match o
    case Response(reply) => if TruthyString(reply) then reply.value else NoReplyText
    case Failure => ErrorText
  }

  /** Every completion yields a visible, non-empty assistant text, and an error is never mistaken for a reply unless the reply says so. */
  lemma ReplyTextNonEmpty(o: Outcome)
    ensures ReplyText(o) != ""
    ensures ReplyText(o) == ErrorText <==> o.Failure? || o.reply == Some(ErrorText)
  {
  }

  /** The `ai_reply` handler: a truthy reply is prepended as an assistant message, anything else is ignored. */
  function PushReply(history: seq<Message>, reply: Option<string>): (r: seq<Message>)
    ensures TruthyString(reply) ==> r == Prepend(history, Message(AiSender, reply.value))
    ensures !TruthyString(reply) ==> r == history
  {
    if TruthyString(reply) then Prepend(history, Message(AiSender, reply.value)) else history
  }
}
