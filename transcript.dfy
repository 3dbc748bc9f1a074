/** The chat transcript and its plain-text export: a header with the date
    and the number of messages, one block per message in the order they
    were added, and a two-line footer. The date and the time of day are
    formatted by the browser's locale; here they are given from outside. */
module Transcript {
  import opened Text

  datatype Role = User | Assistant

  /** One chat history entry. `timestamp` stands for the instant the
      message was added (milliseconds of the clock). */
  datatype Message = Message(role: Role, content: string, timestamp: int)

  const Title: string := "=== SolarBot Chat Transcript ==="
  const Separator: string := "================================="
  const Signature: string := "Generated by SolarBot - Your Solar Energy Assistant"

  function RoleName(role: Role): string {
    if role == User then "You" else "SolarBot"
  }

  /** The text before a message's content: the message's time in square
      brackets, a space, who wrote it, a colon and a line break. */
  function BlockIntro(m: Message, timeOf: int -> string): (intro: string)
    ensures var time, role := timeOf(m.timestamp), RoleName(m.role);
      && |intro| == |time| + |role| + 5
      && intro[..1] == "[" && intro[1..1 + |time|] == time
      && intro[1 + |time|..3 + |time|] == "] "
      && intro[3 + |time|..3 + |time| + |role|] == role
      && intro[|intro| - 2..] == ":\n"
  {
    var time, role := timeOf(m.timestamp), RoleName(m.role);
    Five("[", time, "] ", role, ":\n");
    "[" + time + "] " + role + ":\n"
  }

  /** One message as exported: its intro line, its content verbatim and a
      blank line. */
  function Block(m: Message, timeOf: int -> string): (block: string)
    ensures var intro := BlockIntro(m, timeOf);
      && |block| == |intro| + |m.content| + 2
      && block[..|intro|] == intro
      && block[|intro|..|intro| + |m.content|] == m.content
      && block[|block| - 2..] == "\n\n"
  {
    Pieces(BlockIntro(m, timeOf), m.content, "\n\n");
    BlockIntro(m, timeOf) + m.content + "\n\n"
  }

  /** The blocks of `history`, one per message, in history order. */
  function Blocks(history: seq<Message>, timeOf: int -> string): (parts: seq<string>)
    ensures |parts| == |history|
    ensures forall k :: 0 <= k < |history| ==> parts[k] == Block(history[k], timeOf)
  {
    seq(|history|, k requires 0 <= k < |history| => Block(history[k], timeOf))
  }

  /** The pieces of text `parts` written one after the other. */
  function Concat(parts: seq<string>): string {
    if |parts| == 0 then "" else Concat(parts[..|parts| - 1]) + parts[|parts| - 1]
  }

  /** The export's first lines: the title, the date, the number of
      messages and a separator followed by a blank line. */
  function Header(dateText: string, count: nat): (head: string)
    ensures var dateEnd := |Title| + 8 + |dateText|;
      && dateEnd + |Separator| + 2 <= |head|
      && head[..|Title| + 1] == Title + "\n"
      && head[|Title| + 1..dateEnd] == "Date: " + dateText + "\n"
      && head[dateEnd..|head| - |Separator| - 2] == "Total Messages: " + NatToString(count) + "\n"
      && head[|head| - |Separator| - 2..] == Separator + "\n\n"
  {
    var titleLine, dateLine := Title + "\n", "Date: " + dateText + "\n";
    var countLine, rule := "Total Messages: " + NatToString(count) + "\n", Separator + "\n\n";
    Four(titleLine, dateLine, countLine, rule);
    titleLine + dateLine + countLine + rule
  }

  const Footer: string := Separator + "\n" + Signature + "\n"

  /** The exported document for a history: the header, the blocks of the
      messages and the footer, in that order and with nothing between. */
  function Render(history: seq<Message>, dateText: string, timeOf: int -> string): (doc: string)
    ensures var head, body := Header(dateText, |history|), Concat(Blocks(history, timeOf));
      && |doc| == |head| + |body| + |Footer|
      && doc[..|head|] == head
      && doc[|head|..|head| + |body|] == body
      && doc[|doc| - |Footer|..] == Footer
  {
    var head, body := Header(dateText, |history|), Concat(Blocks(history, timeOf));
    Pieces(head, body, Footer);
    head + body + Footer
  }

  /** Writing two lists of pieces is writing the first, then the second. */
  lemma {:induction false} ConcatAppend(p1: seq<string>, p2: seq<string>)
    ensures Concat(p1 + p2) == Concat(p1) + Concat(p2)
    decreases |p2|
  {
    if |p2| > 0 {
      var p, init, last := p1 + p2, p2[..|p2| - 1], p2[|p2| - 1];
      assert p[..|p| - 1] == p1 + init;
      assert p[|p| - 1] == last;
      calc {
        Concat(p);
        Concat(p1 + init) + last;
        { ConcatAppend(p1, init); }
        (Concat(p1) + Concat(init)) + last;
        Concat(p1) + (Concat(init) + last);
        Concat(p1) + Concat(p2);
      }
    } else {
      assert p1 + p2 == p1;
    }
  }

  /** Piece `i` sits between the pieces before it and those after it. */
  lemma ConcatAround(parts: seq<string>, i: nat)
    requires i < |parts|
    ensures Concat(parts) == Concat(parts[..i]) + parts[i] + Concat(parts[i + 1..])
  {
    var upTo, rest := parts[..i + 1], parts[i + 1..];
    assert upTo[..i] == parts[..i];
    assert parts == upTo + rest;
    ConcatAppend(upTo, rest);
  }

  /** Where message `i`'s content starts in the document. */
  function ContentOffset(history: seq<Message>, i: nat, dateText: string, timeOf: int -> string): nat
    requires i < |history|
  {
    |Header(dateText, |history|)| + |Concat(Blocks(history, timeOf)[..i])| + |BlockIntro(history[i], timeOf)|
  }

  /** Each message's content appears verbatim in the export, right after
      the header, the blocks of the messages before it and its own intro
      line. */
  lemma RenderLayout(history: seq<Message>, dateText: string, timeOf: int -> string, i: nat)
    requires i < |history|
    ensures var doc, p := Render(history, dateText, timeOf), ContentOffset(history, i, dateText, timeOf);
      && p + |history[i].content| <= |doc|
      && doc[p..p + |history[i].content|] == history[i].content
  {
    var head, parts := Header(dateText, |history|), Blocks(history, timeOf);
    var m := history[i];
    ConcatAround(parts, i);
    var intro, after := BlockIntro(m, timeOf), "\n\n" + Concat(parts[i + 1..]);
    var prefix := head + Concat(parts[..i]) + intro;
    assert parts[i] == intro + m.content + "\n\n";
    Regroup(head, Concat(parts[..i]), intro, m.content, "\n\n", Concat(parts[i + 1..]), Footer);
    Pieces(prefix, m.content, after + Footer);
  }

  lemma Regroup(head: string, before: string, intro: string, content: string, gap: string,
    rest: string, tail: string)
    ensures head + (before + (intro + content + gap) + rest) + tail
         == (head + before + intro) + content + ((gap + rest) + tail)
  {
  }

  /** The four pieces of a concatenation can be read back by slicing. */
  lemma Four(a: string, b: string, c: string, d: string)
    ensures var s := a + b + c + d;
      && |s| == |a| + |b| + |c| + |d|
      && s[..|a|] == a && s[|a|..|a| + |b|] == b
      && s[|a| + |b|..|s| - |d|] == c && s[|s| - |d|..] == d
  {
  }

  /** The five pieces of a concatenation can be read back by slicing. */
  lemma Five(a: string, b: string, c: string, d: string, e: string)
    ensures var s := a + b + c + d + e;
      && |s| == |a| + |b| + |c| + |d| + |e|
      && s[..|a|] == a && s[|a|..|a| + |b|] == b
      && s[|a| + |b|..|a| + |b| + |c|] == c
      && s[|a| + |b| + |c|..|a| + |b| + |c| + |d|] == d
      && s[|s| - |e|..] == e
  {
  }

  /** The three pieces of a concatenation can be read back by slicing. */
  lemma Pieces(a: string, b: string, c: string)
    ensures (a + b + c)[..|a|] == a
    ensures (a + b + c)[|a|..|a| + |b|] == b
    ensures (a + b + c)[|a| + |b|..] == c
  {
  }

  /** The blocks of a longer history extend the blocks of a shorter one:
      the block of message `i` follows directly the blocks of messages
      before it, which is how the export builds the text. */
  lemma BlocksExtend(history: seq<Message>, i: nat, timeOf: int -> string)
    requires i < |history|
    ensures Concat(Blocks(history[..i + 1], timeOf))
         == Concat(Blocks(history[..i], timeOf)) + Block(history[i], timeOf)
  {
    var parts := Blocks(history[..i + 1], timeOf);
    assert parts[..i] == Blocks(history[..i], timeOf);
  }

  /** The digits of a "Total Messages: " line sit 16 characters into it. */
  lemma CountLine(head: string, lo: nat, hi: nat, count: string)
    requires lo <= hi <= |head| && head[lo..hi] == "Total Messages: " + count + "\n"
    ensures lo + 16 + |count| <= |head| && head[lo + 16..lo + 16 + |count|] == count
  {
    var line := head[lo..hi];
    assert line[16..16 + |count|] == count;
    InnerSlice(head, lo, hi, 16, 16 + |count|);
  }

  /** The message count in the header reads back as the number of messages.
      Its digits start 24 characters past the title and the date text: the
      title's line break, "Date: ", the date's line break and
      "Total Messages: ". */
  lemma HeaderCount(dateText: string, history: seq<Message>)
    ensures var head := Header(dateText, |history|);
      var start := |Title| + 24 + |dateText|;
      var digits := head[start..start + |NatToString(|history|)|];
      AllDigits(digits) && DigitsValue(digits) == |history|
  {
    var count := NatToString(|history|);
    var head := Header(dateText, |history|);
    CountLine(head, |Title| + 8 + |dateText|, |head| - |Separator| - 2, count);
    NatToStringValue(|history|);
  }
}
