/**
 * The string helpers the front-ends use: Python's `sep.join(parts)` and
 * `s.split(c)`, and the reply quote built from them.
 */
module Text {

  /** Python's `sep.join(parts)`. */
  function Join(sep: string, parts: seq<string>): string
  {
    if |parts| == 0 then ""
    else if |parts| == 1 then parts[0]
    else parts[0] + sep + Join(sep, parts[1..])
  }

  /**
   * Python's `s.split(c)` for a single-character separator: the maximal
   * pieces between occurrences of `c`, always at least one (`"".split(c)`
   * is `[""]`), and no piece contains `c`.
   */
  function Split(s: string, c: char): (r: seq<string>)
    ensures |r| >= 1
    ensures forall i :: 0 <= i < |r| ==> c !in r[i]
    ensures |r| == Count(s, c) + 1
  {
    if s == [] then [""]
    else
      var rest := Split(s[1..], c);
      if s[0] == c then [""] + rest
      else [[s[0]] + rest[0]] + rest[1..]
  }

  /** The number of occurrences of `c` in `s`. */
  function Count(s: string, c: char): nat
  {
    if s == [] then 0 else (if s[0] == c then 1 else 0) + Count(s[1..], c)
  }

  /** Joining the pieces of a split with the separator gives the string back. */
  lemma {:induction false} JoinSplit(s: string, c: char)
    ensures Join([c], Split(s, c)) == s
  {
    if s != [] {
      var rest := Split(s[1..], c);
      JoinSplit(s[1..], c);
      if s[0] != c {
        JoinConsFirst([c], [s[0]], rest);
      }
    }
  }

  /** Prepending to the first part prepends to the joined string. */
  lemma JoinConsFirst(sep: string, x: string, parts: seq<string>)
    requires |parts| >= 1
    ensures Join(sep, [x + parts[0]] + parts[1..]) == x + Join(sep, parts)
  {
  }

  /** Splitting a join of pieces that do not contain the separator gives the pieces back. */
  lemma {:induction false} SplitJoin(parts: seq<string>, c: char)
    requires |parts| >= 1
    requires forall i :: 0 <= i < |parts| ==> c !in parts[i]
    ensures Split(Join([c], parts), c) == parts
  {
    if |parts| == 1 {
      SplitPiece(parts[0], c);
    } else {
      SplitJoin(parts[1..], c);
      SplitAfterPiece(parts[0], Join([c], parts[1..]), c);
      assert Join([c], parts) == parts[0] + ([c] + Join([c], parts[1..]));
      assert [parts[0]] + parts[1..] == parts;
    }
  }

  /** A piece without the separator splits into itself. */
  lemma {:induction false} SplitPiece(p: string, c: char)
    requires c !in p
    ensures Split(p, c) == [p]
  {
    if p != [] {
      SplitPiece(p[1..], c);
      assert [p[0]] + p[1..] == p;
    }
  }

  /** A piece without the separator followed by the separator becomes the first part of the split. */
  lemma {:induction false} SplitAfterPiece(p: string, s: string, c: char)
    requires c !in p
    ensures Split(p + ([c] + s), c) == [p] + Split(s, c)
  {
    var t := p + ([c] + s);
    if p == [] {
      assert t == [c] + s;
      assert t[1..] == s;
    } else {
      assert t[1..] == p[1..] + ([c] + s);
      SplitAfterPiece(p[1..], s, c);
      assert [p[0]] + p[1..] == p;
    }
  }

  /** The lines of a reply quote: each line of the original prefixed with "> ". */
  function QuoteLines(lines: seq<string>): (r: seq<string>)
    ensures |r| == |lines|
    ensures forall i :: 0 <= i < |lines| ==> r[i] == "> " + lines[i]
  {
    seq(|lines|, i requires 0 <= i < |lines| => "> " + lines[i])
  }

  /** The reply quote of a message: its lines, each prefixed with "> ", joined with newlines. */
  function QuoteReply(content: string): string
  {
    Join("\n", QuoteLines(Split(content, '\n')))
  }

  /**
   * The reply quote has exactly one line per line of the content, and line
   * `i` of the quote is line `i` of the content prefixed with "> ".
   */
  lemma QuoteReplyLines(content: string)
    ensures |Split(QuoteReply(content), '\n')| == |Split(content, '\n')|
    ensures forall i :: 0 <= i < |Split(content, '\n')| ==>
      Split(QuoteReply(content), '\n')[i] == "> " + Split(content, '\n')[i]
  {
    var lines := Split(content, '\n');
    var quoted := QuoteLines(lines);
    forall i | 0 <= i < |quoted| ensures '\n' !in quoted[i] {
      assert quoted[i] == "> " + lines[i];
    }
    SplitJoin(quoted, '\n');
  }
}
