/**
 * The flet front-end (chatllm.py): the chat transcript held by `main`, the
 * "Go"/"Stop" handler that streams a reply into it, the clear buttons, the
 * reply quote and the plain-text export.
 */
module ChatLLM {
  import opened Wrappers
  import opened Text
  import opened Conversation

  /** One chat entry: `{'role', 'content', 'context', 'timestamp'}`. */
  datatype Entry = Entry(role: Role, content: string, context: Option<Context>, timestamp: string)

  /** The `role` string an entry carries. */
  function RoleName(role: Role): string
  {
    match role
    case User => "user"
    case Assistant => "assistant"
  }

  /** One entry rendered as text: `"<role>:\n<content>\n"`. */
  function Block(e: Entry): string
  {
    RoleName(e.role) + ":\n" + e.content + "\n"
  }

  /** The text export of a chat: the blocks of its entries, in order, joined with "\n". */
  function ChatToStr(chat: seq<Entry>): string
  {
    Join("\n", seq(|chat|, i requires 0 <= i < |chat| => Block(chat[i])))
  }

  /** The export written turn by turn: every block followed by an empty line. */
  function Transcript(chat: seq<Entry>): string
  {
    if chat == [] then "" else Block(chat[0]) + "\n" + Transcript(chat[1..])
  }

  /**
   * An empty chat exports as "", and a non-empty one as the turn-by-turn
   * transcript without its final newline: one `"role:\ncontent\n"` block per
   * entry, in chat order, separated by "\n".
   */
  lemma ChatToStrIsTranscript(chat: seq<Entry>)
    ensures chat == [] ==> ChatToStr(chat) == ""
    ensures chat != [] ==> ChatToStr(chat) + "\n" == Transcript(chat)
  {
    if chat != [] {
      BlocksTranscript(chat);
    }
  }

  lemma {:induction false} BlocksTranscript(chat: seq<Entry>)
    requires chat != []
    ensures ChatToStr(chat) + "\n" == Transcript(chat)
  {
    var blocks := seq(|chat|, i requires 0 <= i < |chat| => Block(chat[i]));
    if |chat| > 1 {
      BlocksTranscript(chat[1..]);
      var rest := seq(|chat| - 1, i requires 0 <= i < |chat| - 1 => Block(chat[1..][i]));
      assert blocks[1..] == rest;
      assert ChatToStr(chat) == Block(chat[0]) + "\n" + ChatToStr(chat[1..]);
    } else {
      assert chat[1..] == [];
    }
  }

  /** The continuation token a new turn starts from: the last entry's, or none for an empty chat. */
  function LatestContext(chat: seq<Entry>): Option<Context>
  {
    if chat == [] then None else chat[|chat| - 1].context
  }

  /**
   * The assistant entry a turn leaves behind: the responses of the
   * fragments read before the stop was seen, and the token of the last
   * finishing fragment among them (or the seeded one).
   */
  function Reply(seed: Option<Context>, stream: seq<Fragment>, stopAt: nat, timestamp: string): Entry
  {
    var read := stream[..Processed(stream, stopAt)];
    Entry(Assistant, Responses(read), ContextAfter(seed, read), timestamp)
  }

  /** The two entries one answered prompt adds to `chat`. */
  function Turn(chat: seq<Entry>, prompt: string, stream: seq<Fragment>, stopAt: nat,
                userTime: string, replyTime: string): seq<Entry>
  {
    var seed := LatestContext(chat);
    [Entry(User, prompt, seed, userTime), Reply(seed, stream, stopAt, replyTime)]
  }

  /**
   * A reply cut short by a stop click is a prefix of the reply a later
   * click (or none at all) would have left, and the fragment at which the
   * stop is seen contributes nothing.
   */
  lemma ReplyPrefix(seed: Option<Context>, stream: seq<Fragment>, stopAt: nat, later: nat, t: string)
    requires stopAt <= later
    ensures Reply(seed, stream, stopAt, t).content <= Reply(seed, stream, later, t).content
    ensures Reply(seed, stream, stopAt, t).content <= Responses(stream)
    ensures stopAt < |stream| ==> Reply(seed, stream, stopAt, t).content == Responses(stream[..stopAt])
  {
    var n, m := Processed(stream, stopAt), Processed(stream, later);
    ResponsesPrefix(stream[..m], n);
    assert stream[..m][..n] == stream[..n];
    ResponsesPrefix(stream, n);
  }

  /**
   * The assistant entry's token is replaced only by a finishing fragment
   * that was read: with none it keeps the seed, otherwise it is the last
   * such fragment's token.
   */
  lemma ReplyContext(seed: Option<Context>, stream: seq<Fragment>, stopAt: nat, t: string, j: nat)
    ensures (forall k :: 0 <= k < Processed(stream, stopAt) ==> !stream[k].done) ==>
      Reply(seed, stream, stopAt, t).context == seed
    ensures (&& j < Processed(stream, stopAt) && stream[j].done
             && forall k :: j < k < Processed(stream, stopAt) ==> !stream[k].done) ==>
      Reply(seed, stream, stopAt, t).context == stream[j].context
  {
    var read := stream[..Processed(stream, stopAt)];
    if forall k :: 0 <= k < |read| ==> !read[k].done {
      ContextAfterNoDone(seed, read);
    }
    if j < |read| && read[j].done && forall k :: j < k < |read| ==> !read[k].done {
      ContextAfterLastDone(seed, read, j);
    }
  }

  /**
   * A turn is a user entry with the prompt and an assistant entry, both
   * seeded with the previous last entry's token, so the token carried into
   * the next turn is the reply's.
   */
  lemma TurnShape(chat: seq<Entry>, prompt: string, stream: seq<Fragment>, stopAt: nat,
                  userTime: string, replyTime: string)
    ensures var turn := Turn(chat, prompt, stream, stopAt, userTime, replyTime);
      && |turn| == 2
      && turn[0] == Entry(User, prompt, LatestContext(chat), userTime)
      && turn[1].role == Assistant
      && ((forall k :: 0 <= k < |stream| ==> !stream[k].done) ==> turn[1].context == LatestContext(chat))
    ensures LatestContext(chat + Turn(chat, prompt, stream, stopAt, userTime, replyTime))
      == Reply(LatestContext(chat), stream, stopAt, replyTime).context
  {
    if forall k :: 0 <= k < |stream| ==> !stream[k].done {
      ReplyContext(LatestContext(chat), stream, stopAt, replyTime, 0);
    }
  }

  /** Entries alternate user, assistant, user, assistant, … and come in pairs. */
  ghost predicate Paired(chat: seq<Entry>)
  {
    && |chat| % 2 == 0
    && forall i :: 0 <= i < |chat| ==> chat[i].role == (if i % 2 == 0 then User else Assistant)
  }

  /** Adding a turn to a paired chat keeps it paired. */
  lemma TurnKeepsPaired(chat: seq<Entry>, prompt: string, stream: seq<Fragment>, stopAt: nat,
                        userTime: string, replyTime: string)
    requires Paired(chat)
    ensures Paired(chat + Turn(chat, prompt, stream, stopAt, userTime, replyTime))
  {
  }

  /** `chat` with the last entry's token cleared; unchanged when empty. */
  function WithoutLastContext(chat: seq<Entry>): seq<Entry>
  {
    if chat == [] then [] else chat[..|chat| - 1] + [chat[|chat| - 1].(context := None)]
  }

  /**
   * Clearing the context drops only the last entry's token: the next turn
   * starts without one, every entry keeps its role and content, and every
   * earlier entry is untouched.
   */
  lemma WithoutLastContextShape(chat: seq<Entry>)
    ensures |WithoutLastContext(chat)| == |chat|
    ensures LatestContext(WithoutLastContext(chat)) == None
    ensures forall i :: 0 <= i < |chat| ==>
      && WithoutLastContext(chat)[i].role == chat[i].role
      && WithoutLastContext(chat)[i].content == chat[i].content
      && (i < |chat| - 1 ==> WithoutLastContext(chat)[i] == chat[i])
    ensures chat != [] ==> WithoutLastContext(chat)[|chat| - 1] == chat[|chat| - 1].(context := None)
    ensures Paired(chat) ==> Paired(WithoutLastContext(chat))
  {
  }

  /** The state `main` keeps for one page: the chat, whether a reply is streaming, the model and the prompt field. */
  class App {
    /** The chat transcript, oldest entry first. */
    var chat: seq<Entry>
    /** True while a reply is being streamed. */
    var answering: bool
    /** Whether a model has been chosen (`model` is not None). */
    var modelLoaded: bool
    /** The prompt text field's value; flet reports a cleared field as None. */
    var promptEntry: Option<string>

    constructor ()
      ensures chat == [] && !answering && !modelLoaded && promptEntry == Some("")
    {
      chat := [];
      answering := false;
      modelLoaded := false;
      promptEntry := Some("");
    }

    /** Choosing a model in the drop-down loads it. */
    method ModelLoadClicked()
      modifies this`modelLoaded
      ensures modelLoaded
    {
      modelLoaded := true;
    }

    /** `stop()`: the reply is over (its button styling is not modelled). */
    method Stop()
      modifies this`answering
      ensures !answering
    {
      answering := false;
    }

    /** Appends one entry to the chat (the widget it creates is not modelled). */
    method ChatAddEntry(entry: Entry)
      modifies this`chat
      ensures chat == old(chat) + [entry]
    {
      chat := chat + [entry];
    }

    /**
     * The "Go" button. While a reply streams, or before a model is loaded,
     * it only stops. Otherwise it takes and clears the prompt field, does
     * nothing more for an empty or missing prompt, and else adds the user
     * entry and an empty assistant entry, both seeded with the last entry's
     * token, and reads `stream` into the assistant entry until the stop
     * click (a second press, which runs `stop()`) is seen before fragment
     * `stopAt`. Every path ends with `answering` false.
     */
    method PromptGoClicked(stream: seq<Fragment>, stopAt: nat, userTime: string, replyTime: string)
      modifies this`chat, this`answering, this`promptEntry
      ensures !answering
      ensures modelLoaded == old(modelLoaded)
      ensures old(answering) || !old(modelLoaded) ==>
        chat == old(chat) && promptEntry == old(promptEntry)
      ensures !old(answering) && old(modelLoaded) ==> promptEntry == None
      ensures !old(answering) && old(modelLoaded) && old(promptEntry) in {None, Some("")} ==>
        chat == old(chat)
      ensures !old(answering) && old(modelLoaded) && old(promptEntry) !in {None, Some("")} ==>
        chat == old(chat) + Turn(old(chat), old(promptEntry).value, stream, stopAt, userTime, replyTime)
      ensures Paired(old(chat)) ==> Paired(chat)
    {
      if answering || !modelLoaded {
        Stop();
        return;
      }
      var prompt := promptEntry;
      promptEntry := None;
      if prompt == None || prompt.value == "" {
        return;
      }
      answering := true;
      var context := LatestContext(chat);
      ghost var before := chat;
      ChatAddEntry(Entry(User, prompt.value, context, userTime));
      ChatAddEntry(Entry(Assistant, "", context, replyTime));
      var k := 0;
      while k < |stream|
        invariant k <= |stream| && k <= stopAt
        invariant answering && promptEntry == None
        invariant chat == before + [Entry(User, prompt.value, context, userTime),
                                    Entry(Assistant, Responses(stream[..k]), ContextAfter(context, stream[..k]), replyTime)]
      {
        if k == stopAt {
          // the second press of the button, handled while this loop waits for the next fragment
          Stop();
        }
        if !answering {
          break;
        }
        var t := stream[k];
        var last := chat[|chat| - 1];
        var updated := last.(content := last.content + t.response,
                             context := if t.done then t.context else last.context);
        chat := chat[..|chat| - 1] + [updated];
        assert stream[..k + 1][..k] == stream[..k];
        k := k + 1;
      }
      assert k == Processed(stream, stopAt);
      Stop();
      if Paired(before) {
        TurnKeepsPaired(before, prompt.value, stream, stopAt, userTime, replyTime);
      }
    }

    /** The reply button of entry `i` puts the entry's content, quoted line by line, in the prompt field. */
    method ChatEntryReplyClick(i: nat)
      requires i < |chat|
      modifies this`promptEntry
      ensures promptEntry == Some(QuoteReply(chat[i].content))
    {
      promptEntry := Some(QuoteReply(chat[i].content));
    }

    /** "Clear chat" empties the transcript. */
    method ClearChatClicked()
      modifies this`chat
      ensures chat == []
    {
      chat := [];
    }

    /** "Clear context" drops the last entry's token; nothing happens on an empty chat. */
    method ClearContextClicked()
      modifies this`chat
      ensures chat == WithoutLastContext(old(chat))
    {
      if chat == [] {
        return;
      }
      chat := chat[..|chat| - 1] + [chat[|chat| - 1].(context := None)];
    }

    /** The text export of the current chat (`chat_to_str()` without `in_json`). */
    function ChatText(): string
      reads this
    {
      ChatToStr(chat)
    }
  }

  /**
   * The first two turns of a conversation: "Hi" answered by "He", "llo" and
   * a finishing fragment with token [7]; then "More" starts from that token.
   */
  method HelloScenario()
  {
    var app := new App();
    app.ModelLoadClicked();
    app.promptEntry := Some("Hi");
    var stream := [Fragment("He", false, None), Fragment("llo", false, None), Fragment("", true, Some([7]))];
    app.PromptGoClicked(stream, |stream|, "t0", "t1");
    assert stream[..3] == stream;
    assert stream[..2] == stream[..3][..2];
    assert stream[..1] == stream[..2][..1];
    assert Responses(stream[..1]) == "He";
    assert Responses(stream[..2]) == "Hello";
    assert Responses(stream) == "Hello" && ContextAfter(None, stream) == Some([7]);
    assert Reply(None, stream, 3, "t1") == Entry(Assistant, "Hello", Some([7]), "t1");
    assert app.chat == [Entry(User, "Hi", None, "t0"), Entry(Assistant, "Hello", Some([7]), "t1")];
    app.promptEntry := Some("More");
    app.PromptGoClicked([], 0, "t2", "t3");
    assert app.chat[2] == Entry(User, "More", Some([7]), "t2");
  }
}
