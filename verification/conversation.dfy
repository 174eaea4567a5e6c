/**
 * What the three front-ends share: the two speakers of a chat and the
 * records of a streamed reply from the generation backend.
 */
module Conversation {
  import opened Wrappers

  /** Who wrote a chat entry: the person at the keyboard or the model. */
  datatype Role = User | Assistant

  /** The backend's continuation token, a list of integers the front-end never interprets. */
  type Context = seq<int>

  /**
   * One record of a streamed reply: a piece of text, whether the reply is
   * finished, and the continuation token the backend sends with the
   * finishing record.
   */
  datatype Fragment = Fragment(response: string, done: bool, context: Option<Context>)

  /** The text of a stream of fragments: their `response`s, concatenated in order. */
  function Responses(frs: seq<Fragment>): string
  {
    if frs == [] then "" else Responses(frs[..|frs| - 1]) + frs[|frs| - 1].response
  }

  /** The responses of two consecutive stretches of a stream are the concatenation of their responses. */
  lemma {:induction false} ResponsesAppend(a: seq<Fragment>, b: seq<Fragment>)
    ensures Responses(a + b) == Responses(a) + Responses(b)
  {
    if b == [] {
      assert a + b == a;
    } else {
      var b' := b[..|b| - 1];
      assert (a + b)[..|a + b| - 1] == a + b';
      ResponsesAppend(a, b');
    }
  }

  /** Stopping after `k` fragments yields a prefix of the text the whole stream yields. */
  lemma {:induction false} ResponsesPrefix(frs: seq<Fragment>, k: nat)
    requires k <= |frs|
    ensures Responses(frs[..k]) <= Responses(frs)
  {
    assert frs == frs[..k] + frs[k..];
    ResponsesAppend(frs[..k], frs[k..]);
  }

  /** How many fragments are read when the stop press is first seen at fragment `stopAt`. */
  function Processed(stream: seq<Fragment>, stopAt: nat): (n: nat)
    ensures n <= |stream| && n <= stopAt
    ensures n == |stream| || n == stopAt
  {
    if stopAt < |stream| then stopAt else |stream|
  }

  /**
   * The continuation token after a stream has been read, starting from
   * `seed`: a fragment with `done` set replaces it, every other fragment
   * keeps it.
   */
  function ContextAfter(seed: Option<Context>, frs: seq<Fragment>): Option<Context>
  {
    if frs == [] then seed
    else
      var t := frs[|frs| - 1];
      if t.done then t.context else ContextAfter(seed, frs[..|frs| - 1])
  }

  /** A stream without a finishing fragment keeps the seeded token. */
  lemma {:induction false} ContextAfterNoDone(seed: Option<Context>, frs: seq<Fragment>)
    requires forall j :: 0 <= j < |frs| ==> !frs[j].done
    ensures ContextAfter(seed, frs) == seed
  {
    if frs != [] {
      ContextAfterNoDone(seed, frs[..|frs| - 1]);
    }
  }

  /** Otherwise the token is the one carried by the last finishing fragment. */
  lemma {:induction false} ContextAfterLastDone(seed: Option<Context>, frs: seq<Fragment>, j: nat)
    requires j < |frs| && frs[j].done
    requires forall k :: j < k < |frs| ==> !frs[k].done
    ensures ContextAfter(seed, frs) == frs[j].context
  {
    if j < |frs| - 1 {
      ContextAfterLastDone(seed, frs[..|frs| - 1], j);
    }
  }
}
