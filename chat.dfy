/** What the chat model is given and what it gives back. */
module Chat {

  /** A tool call requested by the model: the tool's name and its `query` argument. */
  datatype ToolCall = ToolCall(name: string, query: string)

  /** A model reply: its text `content` and its `tool_calls` (empty for a direct answer). */
  datatype Reply = Reply(content: string, toolCalls: seq<ToolCall>)

  const HumanPrefix: string := "Human: "

  /**
   * The string `ChatPromptTemplate.format` returns for a one-message
   * template: the message text behind its role prefix. The chain itself
   * hands the model the message text alone.
   */
  function ChatFormat(text: string): (r: string)
    ensures |r| == |HumanPrefix| + |text| && r[|HumanPrefix|..] == text
  {
    HumanPrefix + text
  }

  /**
   * A chat model seen from outside, where the number of calls matters:
   * what it answers to each input, and the inputs sent to it so far.
   */
  class ChatModel {
    const respond: string -> Reply
    var sent: seq<string>

    constructor (respond: string -> Reply)
      ensures this.respond == respond && sent == []
    {
      this.respond := respond;
      sent := [];
    }

    /** `invoke`: one call to the model. */
    method Invoke(input: string) returns (reply: Reply)
      modifies this
      ensures reply == respond(input)
      ensures sent == old(sent) + [input]
    {
      reply := respond(input);
      sent := sent + [input];
    }
  }
}
