/**
 * The customtkinter front-end (chatllm_old.py): `str_chunks`, which wraps a
 * message into fixed-width lines to size its text box, and the window's
 * chat with its "Go"/"Stop" handler.
 */
module ChatLLMOld {
  import opened Conversation

  /** Python's `' ' * n`: `n` spaces, and none when `n` is not positive. */
  function Spaces(n: int): (r: string)
    ensures |r| == (if n <= 0 then 0 else n)
    ensures forall i :: 0 <= i < |r| ==> r[i] == ' '
  {
    if n <= 0 then "" else [' '] + Spaces(n - 1)
  }

  /** The loop state of `str_chunks`: the finished lines and the line being filled. */
  datatype ChunkState = ChunkState(lines: seq<string>, tmp: string)

  /**
   * One character of `str_chunks`: a newline pads the current line with
   * spaces to width `w`, any other character is added to it; the line is
   * finished when it reaches `w` characters or at a newline.
   */
  function Feed(st: ChunkState, c: char, w: int): ChunkState
  {
    var tmp := if c == '\n' then st.tmp + Spaces(w - |st.tmp|) else st.tmp + [c];
    if |tmp| >= w || c == '\n' then ChunkState(st.lines + [tmp], "") else ChunkState(st.lines, tmp)
  }

  /** The loop state of `str_chunks` after reading all of `s`. */
  function Scan(s: string, w: int): ChunkState
  {
    if s == [] then ChunkState([], "") else Feed(Scan(s[..|s| - 1], w), s[|s| - 1], w)
  }

  /** `str_chunks(s, w)`: the finished lines, then the unfinished one if it is not empty. */
  function Chunks(s: string, w: int): seq<string>
  {
    var st := Scan(s, w);
    if st.tmp != "" then st.lines + [st.tmp] else st.lines
  }

  /** `str_chunks`, character by character as the source loops. */
  method StrChunks(s: string, w: int) returns (lines: seq<string>)
    ensures lines == Chunks(s, w)
  {
    lines := [];
    var tmp := "";
    for i := 0 to |s|
      invariant ChunkState(lines, tmp) == Scan(s[..i], w)
    {
      var c := s[i];
      if c == '\n' {
        tmp := tmp + Spaces(w - |tmp|);
      } else {
        tmp := tmp + [c];
      }
      if |tmp| >= w || c == '\n' {
        lines := lines + [tmp];
        tmp := "";
      }
      assert s[..i + 1][..i] == s[..i];
    }
    assert s[..|s|] == s;
    if tmp != "" {
      lines := lines + [tmp];
      tmp := "";
    }
  }

  /** What `Scan` keeps for `w >= 1`: full-width lines without newlines, and a shorter line being filled. */
  ghost predicate ScanShape(st: ChunkState, w: int)
  {
    && (forall i :: 0 <= i < |st.lines| ==> |st.lines[i]| == w && '\n' !in st.lines[i])
    && |st.tmp| < w
    && '\n' !in st.tmp
  }

  lemma {:induction false} ScanHasShape(s: string, w: int)
    requires w >= 1
    ensures ScanShape(Scan(s, w), w)
  {
    if s != [] {
      ScanHasShape(s[..|s| - 1], w);
      var st := Scan(s[..|s| - 1], w);
      var c := s[|s| - 1];
      if c == '\n' {
        var line := st.tmp + Spaces(w - |st.tmp|);
        assert forall k :: 0 <= k < |line| ==> line[k] != '\n' by {
          forall k | 0 <= k < |line| ensures line[k] != '\n' {
            if k >= |st.tmp| {
              assert line[k] == Spaces(w - |st.tmp|)[k - |st.tmp|];
            } else {
              assert line[k] == st.tmp[k];
            }
          }
        }
      }
    }
  }

  /**
   * For `w >= 1`: an empty string has no chunks; every chunk but the last
   * has exactly `w` characters; the last has between 1 and `w`, and fewer
   * than `w` exactly when it is the leftover line; no chunk holds a newline.
   */
  lemma ChunksShape(s: string, w: int)
    requires w >= 1
    ensures s == "" ==> Chunks(s, w) == []
    ensures forall i :: 0 <= i < |Chunks(s, w)| - 1 ==> |Chunks(s, w)[i]| == w
    ensures |Chunks(s, w)| > 0 ==> 1 <= |Chunks(s, w)[|Chunks(s, w)| - 1]| <= w
    ensures Scan(s, w).tmp == "" && |Chunks(s, w)| > 0 ==> |Chunks(s, w)[|Chunks(s, w)| - 1]| == w
    ensures Scan(s, w).tmp != "" ==>
      Chunks(s, w)[|Chunks(s, w)| - 1] == Scan(s, w).tmp && |Scan(s, w).tmp| < w
    ensures forall i :: 0 <= i < |Chunks(s, w)| ==> '\n' !in Chunks(s, w)[i]
  {
    ScanHasShape(s, w);
  }

  /** A newline finishes the line being filled, padded with spaces up to width `w`. */
  lemma NewlinePads(s: string, w: int)
    requires w >= 1
    ensures var st := Scan(s, w);
      Scan(s + "\n", w) == ChunkState(st.lines + [st.tmp + Spaces(w - |st.tmp|)], "")
    ensures |Scan(s + "\n", w).lines[|Scan(s, w).lines|]| == w
  {
  }

  /** All the lines of a chunking, concatenated. */
  function Flatten(lines: seq<string>): string
  {
    if lines == [] then "" else Flatten(lines[..|lines| - 1]) + lines[|lines| - 1]
  }

  /**
   * Without newlines nothing is padded: the chunks concatenate back to the
   * input, and there are just enough of them to hold it (`n` chunks of
   * width `w` with `|s| <= n * w < |s| + w`).
   */
  lemma ChunksOfLine(s: string, w: int)
    requires w >= 1
    requires '\n' !in s
    ensures Flatten(Chunks(s, w)) == s
    ensures |s| <= |Chunks(s, w)| * w < |s| + w
  {
    ScanOfLine(s, w);
    ScanHasShape(s, w);
    var st := Scan(s, w);
    FlattenLength(st.lines, w);
    if st.tmp != "" {
      assert (st.lines + [st.tmp])[..|st.lines|] == st.lines;
      MulSucc(|st.lines|, w);
    }
  }

  /** `(n + 1) * w == n * w + w`. */
  lemma MulSucc(n: nat, w: int)
    ensures (n + 1) * w == n * w + w
  {
  }

  /** Lines all of width `w` concatenate to `w` characters per line. */
  lemma {:induction false} FlattenLength(lines: seq<string>, w: int)
    requires forall i :: 0 <= i < |lines| ==> |lines[i]| == w
    ensures |Flatten(lines)| == |lines| * w
  {
    if lines != [] {
      FlattenLength(lines[..|lines| - 1], w);
    }
  }

  /** Without newlines, the finished lines and the line being filled are the input, in order. */
  lemma {:induction false} ScanOfLine(s: string, w: int)
    requires w >= 1
    requires forall k :: 0 <= k < |s| ==> s[k] != '\n'
    ensures Flatten(Scan(s, w).lines) + Scan(s, w).tmp == s
  {
    if s != [] {
      var s' := s[..|s| - 1];
      ScanOfLine(s', w);
      var st := Scan(s', w);
      var c := s[|s| - 1];
      FeedChar(st, c, w);
      assert Scan(s, w) == Feed(st, c, w);
      assert s == s' + [c];
    }
  }

  /** An ordinary character is added to the line being filled, which is finished when it reaches width `w`. */
  lemma FeedChar(st: ChunkState, c: char, w: int)
    requires c != '\n'
    ensures Flatten(Feed(st, c, w).lines) + Feed(st, c, w).tmp == Flatten(st.lines) + st.tmp + [c]
  {
    var line := st.tmp + [c];
    if |line| >= w {
      assert (st.lines + [line])[..|st.lines|] == st.lines;
    }
  }

  /** The width, in characters, of a chat text box. */
  const BoxWidth := 60

  /** The height of a chat text box: 28 pixels and 18 more per 60-character line of its message. */
  function Height(msg: string): int
  {
    28 + 18 * |Chunks(msg, BoxWidth)|
  }

  /** `28 + 18 * len(str_chunks(msg, 60))`, computed as the window computes it. */
  method EntryHeight(msg: string) returns (h: int)
    ensures h == Height(msg)
    ensures h >= 28 && (h - 28) % 18 == 0
    ensures h == 28 <==> msg == ""
    ensures '\n' !in msg ==> |msg| <= (h - 28) / 18 * BoxWidth < |msg| + BoxWidth
  {
    var lines := StrChunks(msg, BoxWidth);
    h := 28 + 18 * |lines|;
    ChunksShape(msg, BoxWidth);
    if msg != "" {
      assert Scan(msg, BoxWidth).lines != [] || Scan(msg, BoxWidth).tmp != "" by {
        ScanNonEmpty(msg, BoxWidth);
      }
    }
    if '\n' !in msg {
      ChunksOfLine(msg, BoxWidth);
    }
  }

  /** A non-empty string leaves something behind in the scan. */
  lemma ScanNonEmpty(s: string, w: int)
    requires w >= 1 && s != ""
    ensures Scan(s, w).lines != [] || Scan(s, w).tmp != ""
  {
  }

  /** One chat message of this window: `{'who': 'user' | 'ai', 'msg'}`. */
  datatype Message = Message(who: Role, msg: string)

  /** The customtkinter window: its chat, the heights of the chat's text boxes, the streaming flag and the prompt field. */
  class ChatLLM {
    var chat: seq<Message>
    /** The heights of `chat_entries`, the text boxes showing the messages, one per message. */
    var heights: seq<int>
    var answering: bool
    /** The prompt entry's text. */
    var promptEntry: string

    /** Every message has its text box, sized to its current text. */
    ghost predicate Valid()
      reads this
    {
      && |heights| == |chat|
      && forall i :: 0 <= i < |chat| ==> heights[i] == Height(chat[i].msg)
    }

    constructor ()
      ensures Valid() && chat == [] && !answering && promptEntry == ""
    {
      chat := [];
      heights := [];
      answering := false;
      promptEntry := "";
    }

    /** Creates the text box of a new message, sized to it. */
    method AddChatEntry(entry: Message)
      modifies this`heights
      ensures heights == old(heights) + [Height(entry.msg)]
    {
      var h := EntryHeight(entry.msg);
      heights := heights + [h];
    }

    /** Shows the new text of the last message and resizes its text box. */
    method UpdateLastChatEntry(entry: Message)
      requires |heights| > 0
      modifies this`heights
      ensures heights == old(heights)[..|old(heights)| - 1] + [Height(entry.msg)]
    {
      var h := EntryHeight(entry.msg);
      heights := heights[..|heights| - 1] + [h];
    }

    /**
     * The "Go" button. With an empty prompt, or while a reply streams, it
     * only stops. Otherwise it clears the prompt field, adds the user
     * message and an empty "ai" message, and reads `stream` into the
     * latter until the stop (a second press) is seen before fragment
     * `stopAt`. `answering` ends false on every path.
     */
    method PromptCb(stream: seq<Fragment>, stopAt: nat)
      requires Valid()
      modifies this`chat, this`heights, this`answering, this`promptEntry
      ensures Valid() && !answering
      ensures old(promptEntry) == "" || old(answering) ==>
        chat == old(chat) && promptEntry == old(promptEntry)
      ensures old(promptEntry) != "" && !old(answering) ==>
        && promptEntry == ""
        && chat == old(chat) + [Message(User, old(promptEntry)),
                                Message(Assistant, Responses(stream[..Processed(stream, stopAt)]))]
    {
      var prompt := promptEntry;
      if prompt == "" || answering {
        answering := false;
        return;
      }
      answering := true;
      promptEntry := "";
      chat := chat + [Message(User, prompt)];
      AddChatEntry(chat[|chat| - 1]);
      chat := chat + [Message(Assistant, "")];
      AddChatEntry(chat[|chat| - 1]);
      ghost var before := old(chat);
      var k := 0;
      while k < |stream|
        invariant k <= |stream| && k <= stopAt
        invariant answering && promptEntry == ""
        invariant Valid()
        invariant chat == before + [Message(User, prompt), Message(Assistant, Responses(stream[..k]))]
      {
        if k == stopAt {
          // the second press of the button, handled while this loop waits for the next fragment
          answering := false;
        }
        if !answering {
          break;
        }
        var t := stream[k];
        var last := chat[|chat| - 1];
        chat := chat[..|chat| - 1] + [last.(msg := last.msg + t.response)];
        UpdateLastChatEntry(chat[|chat| - 1]);
        assert stream[..k + 1][..k] == stream[..k];
        k := k + 1;
      }
      assert k == Processed(stream, stopAt);
      answering := false;
    }
  }
}
