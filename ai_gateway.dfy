/**
 * The AI gateway failure handling shared by the edge functions: a rate limit
 * and an exhausted credit balance are passed through with their own status,
 * and any other failure becomes a thrown error answered with 500.
 */
module AIGateway {
  import opened Text

  const RateLimitMessage: string := "Rate limit exceeded. Please try again in a moment."
  const CreditsMessage: string := "AI credits depleted. Please add credits to continue."

  datatype ErrorResponse = ErrorResponse(status: int, error: string)

  /** The response to a gateway answer that is not ok, with status `status`. */
  function GatewayFailure(status: int): ErrorResponse {
    if status == 429 then ErrorResponse(429, RateLimitMessage)
    else if status == 402 then ErrorResponse(402, CreditsMessage)
    else ErrorResponse(500, "AI gateway error: " + IntToString(status))
  }

  /** 429 and 402 keep their status; every other gateway status is answered with 500. */
  lemma GatewayFailureSpec(status: int)
    ensures var r := GatewayFailure(status);
      && (r.status == 429 <==> status == 429)
      && (r.status == 402 <==> status == 402)
      && (status != 429 && status != 402 <==> r.status == 500)
      && (r.status == 500 ==> r.error[..18] == "AI gateway error: ")
  {
  }

  /** A tool call as the AI returns it; `arguments` is taken as already parsed. */
  datatype ToolCall = ToolCall(name: string, arguments: string)

  /** The AI gateway's answer to a chat-completions request. */
  datatype AIReply = GatewayNotOk(status: int) | AIMessage(content: string, toolCalls: seq<ToolCall>)
}
