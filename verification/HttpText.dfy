/** The shape of an HTTP message: header lines, a blank line, a body
    (section 2.1 of RFC 9112). */
module HttpText {
  import opened Common
  import opened TextScan

  const CRLF: set<char> := {'\r', '\n'}
  const BLANK_LINE := "\r\n\r\n"

  /** Where the header part ends: the first blank line. */
  function HeadEnd(buffer: string): Option<nat> {
    IndexOf(buffer, BLANK_LINE, 0)
  }

  predicate LineOk(line: string) {
    line != [] && Free(line, CRLF)
  }

  function JoinLines(lines: seq<string>): string {
    if lines == [] then "" else lines[0] + "\r\n" + JoinLines(lines[1..])
  }

  /** The lines without the line end after the last one. */
  function HeadText(lines: seq<string>): string {
    if lines == [] then ""
    else if |lines| == 1 then lines[0]
    else lines[0] + "\r\n" + HeadText(lines[1..])
  }

  function MessageText(lines: seq<string>, body: string): string {
    JoinLines(lines) + "\r\n" + body
  }

  lemma {:induction false} JoinIsHead(lines: seq<string>)
    requires lines != []
    ensures JoinLines(lines) == HeadText(lines) + "\r\n"
    decreases |lines|
  {
    if |lines| > 1 {
      JoinIsHead(lines[1..]);
      assert lines[0] + "\r\n" + (HeadText(lines[1..]) + "\r\n") == lines[0] + "\r\n" + HeadText(lines[1..]) + "\r\n";
    } else {
      assert lines[1..] == [] && lines[0] + "\r\n" + "" == lines[0] + "\r\n";
    }
  }

  /** No blank line begins inside or right after a line that another line follows. */
  lemma NoBlankInLine(line: string, rest: string, j: nat)
    requires LineOk(line) && rest != [] && rest[0] != '\r'
    requires j < |line| + 2
    ensures !StartsAt(line + "\r\n" + rest, j, BLANK_LINE)
  {
    var text := line + "\r\n" + rest;
    assert forall i :: 0 <= i < |line| ==> text[i] == line[i];
    assert text[|line| + 1] == '\n' && text[|line| + 2] == rest[0];
    DiffersAt(text, j, BLANK_LINE, if j == |line| then 2 else 0);
  }

  lemma ShiftedStart(front: string, rest: string, p: string, j: nat)
    ensures StartsAt(front + rest, |front| + j, p) <==> StartsAt(rest, j, p)
  {
    if j + |p| <= |rest| {
      assert (front + rest)[|front| + j..|front| + j + |p|] == rest[j..j + |p|];
    }
  }

  lemma LastLineEnds(line: string, body: string)
    requires LineOk(line)
    ensures HeadEnd(line + "\r\n" + "\r\n" + body) == Some(|line|)
  {
    var text := line + "\r\n" + "\r\n" + body;
    assert text[|line|..|line| + 4] == BLANK_LINE;
    forall j | 0 <= j < |line| ensures !StartsAt(text, j, BLANK_LINE) {
      assert text[j] == line[j];
    }
    IndexIs(text, BLANK_LINE, 0, |line|);
  }

  lemma FirstLineAdds(line: string, rest: string, n: nat)
    requires LineOk(line) && rest != [] && rest[0] != '\r'
    requires HeadEnd(rest) == Some(n)
    ensures HeadEnd(line + "\r\n" + rest) == Some(|line| + 2 + n)
  {
    var front := line + "\r\n";
    ShiftedStart(front, rest, BLANK_LINE, n);
    forall j | 0 <= j < |front| + n ensures !StartsAt(front + rest, j, BLANK_LINE) {
      if j < |front| { NoBlankInLine(line, rest, j); }
      else {
        ShiftedStart(front, rest, BLANK_LINE, j - |front|);
        assert !StartsAt(rest, j - |front|, BLANK_LINE);
      }
    }
    IndexIs(front + rest, BLANK_LINE, 0, |front| + n);
  }

  lemma MessageStarts(lines: seq<string>, body: string)
    requires lines != [] && LineOk(lines[0])
    ensures MessageText(lines, body) != "" && MessageText(lines, body)[0] != '\r'
  {
    assert MessageText(lines, body)[0] == lines[0][0];
  }

  lemma MessageParts(lines: seq<string>, body: string)
    requires lines != []
    ensures MessageText(lines, body) == HeadText(lines) + (BLANK_LINE + body)
  {
    JoinIsHead(lines);
    assert HeadText(lines) + "\r\n" + "\r\n" + body == HeadText(lines) + (BLANK_LINE + body);
  }

  lemma MessageSplits(lines: seq<string>, body: string)
    requires |lines| > 1
    ensures MessageText(lines, body) == lines[0] + "\r\n" + MessageText(lines[1..], body)
  {
    assert lines[0] + "\r\n" + JoinLines(lines[1..]) + "\r\n" + body
        == lines[0] + "\r\n" + (JoinLines(lines[1..]) + "\r\n" + body);
  }

  lemma {:induction false} FirstBlankLine(lines: seq<string>, body: string)
    requires lines != [] && forall line :: line in lines ==> LineOk(line)
    ensures HeadEnd(MessageText(lines, body)) == Some(|HeadText(lines)|)
    decreases |lines|
  {
    hide HeadEnd, LineOk, MessageText;
    if |lines| == 1 {
      MessageParts(lines, body);
      assert lines[0] + "\r\n" + "\r\n" + body == lines[0] + (BLANK_LINE + body);
      LastLineEnds(lines[0], body);
    } else {
      assert lines[1] in lines;
      MessageStarts(lines[1..], body);
      FirstBlankLine(lines[1..], body);
      FirstLineAdds(lines[0], MessageText(lines[1..], body), |HeadText(lines[1..])|);
      MessageSplits(lines, body);
    }
  }

  /** The first blank line of a message is the one after its last header line. */
  lemma BlankLineEndsHead(lines: seq<string>, body: string)
    requires lines != [] && forall line :: line in lines ==> LineOk(line)
    ensures HeadEnd(MessageText(lines, body)) == Some(|HeadText(lines)|)
    ensures MessageText(lines, body)[..|HeadText(lines)|] == HeadText(lines)
    ensures MessageText(lines, body)[|HeadText(lines)| + 4..] == body
  {
    hide HeadEnd, MessageText, JoinLines, HeadText;
    FirstBlankLine(lines, body);
    MessageParts(lines, body);
  }

  lemma {:induction false} TokensOfHead(lines: seq<string>)
    requires lines != [] && forall line :: line in lines ==> LineOk(line)
    ensures Tokens(HeadText(lines), CRLF) == lines
    decreases |lines|
  {
    var text := HeadText(lines);
    var line := lines[0];
    assert line in lines;
    assert forall i :: 0 <= i < |line| ==> text[i] == line[i];
    SpanIs(text, CRLF, |line|);
    assert text[..|line|] == line;
    if |lines| == 1 {
      assert text[|line|..] == "";
    } else {
      var rest := HeadText(lines[1..]);
      assert text[|line|..] == "\r\n" + rest;
      assert ("\r\n" + rest)[1..] == "\n" + rest && ("\n" + rest)[1..] == rest;
      assert Tokens(text[|line|..], CRLF) == Tokens(rest, CRLF);
      assert forall other :: other in lines[1..] ==> other in lines;
      TokensOfHead(lines[1..]);
    }
  }
}
