/**
 * The flet front-end of chatllm_remove.py: its "Go" handler appends the
 * prompt and an "AI:" message and streams the whole reply into the latter,
 * with no guard and no way to stop it.
 */
module ChatLLMRemove {
  import opened Wrappers
  import opened Conversation

  /** One chat message: `{'who': 'user' | 'ai', 'msg'}`; a prompt taken from a cleared field is None. */
  datatype Message = Message(who: Role, msg: Option<string>)

  /** The header every reply starts with. */
  const ReplyHeader := "AI:"

  /** The page state: the chat and the prompt field. */
  class ChatLLM {
    var chat: seq<Message>
    /** The prompt text field's value; None once the handler has cleared it. */
    var promptEntry: Option<string>

    constructor ()
      ensures chat == [] && promptEntry == Some("")
    {
      chat := [];
      promptEntry := Some("");
    }

    /**
     * The "Go" button: the prompt, verbatim and unchecked, as a user
     * message, then an "AI:" message that receives every fragment of
     * `stream` in order. The prompt field is cleared.
     */
    method PromptGoClicked(stream: seq<Fragment>)
      modifies this`chat, this`promptEntry
      ensures promptEntry == None
      ensures chat == old(chat) + [Message(User, old(promptEntry)),
                                   Message(Assistant, Some(ReplyAfter(stream, |stream|)))]
    {
      var prompt := promptEntry;
      chat := chat + [Message(User, prompt)];
      promptEntry := None;
      chat := chat + [Message(Assistant, Some(ReplyHeader))];
      ghost var before := old(chat);
      assert stream[..0] == [];
      assert ReplyAfter(stream, 0) == ReplyHeader;
      assert chat == before + [Message(User, prompt), Message(Assistant, Some(ReplyHeader))];
      for k := 0 to |stream|
        invariant promptEntry == None
        invariant chat == before + [Message(User, prompt), Message(Assistant, Some(ReplyAfter(stream, k)))]
      {
        var last := chat[|chat| - 1];
        chat := chat[..|chat| - 1] + [last.(msg := Some(last.msg.value + stream[k].response))];
        ReplyPrefix(stream, k);
      }
    }
  }

  /** The "AI:" message after the first `k` fragments have been read. */
  function ReplyAfter(stream: seq<Fragment>, k: nat): string
    requires k <= |stream|
  {
    ReplyHeader + Responses(stream[..k])
  }

  /**
   * Since every fragment is read, the reply after `k` fragments is a
   * prefix of the final reply, and the next fragment extends it by exactly
   * its response.
   */
  lemma ReplyPrefix(stream: seq<Fragment>, k: nat)
    requires k <= |stream|
    ensures ReplyAfter(stream, k) <= ReplyAfter(stream, |stream|)
    ensures k < |stream| ==> ReplyAfter(stream, k + 1) == ReplyAfter(stream, k) + stream[k].response
  {
    ResponsesPrefix(stream, k);
    assert stream[..|stream|] == stream;
    PrefixUnder(ReplyHeader, Responses(stream[..k]), Responses(stream));
    if k < |stream| {
      assert stream[..k + 1][..k] == stream[..k];
    }
  }

  lemma PrefixUnder(h: string, a: string, b: string)
    requires a <= b
    ensures h + a <= h + b
  {
  }
}
