/** Finding a named cookie in the header part of a request (src/cookie_extract.c). */
module Cookies {
  import opened Common
  import opened TextScan
  import opened HttpText

  const VALUE_END: set<char> := {';', ' ', '\r', '\n'}

  datatype CookieResult = Found(value: string) | Missing(code: int)

  predicate IsCookieLine(line: string) {
    |line| >= 7 && Lowered(line[..7]) == "cookie:"
  }

  function DropSpaces(s: string): (r: string)
    ensures |r| <= |s| && r == s[|s| - |r|..]
    ensures r == [] || r[0] != ' '
  {
    if s == [] || s[0] != ' ' then s else DropSpaces(s[1..])
  }

  /** `name=` stands at position i, at the start of the list or after a separator. */
  predicate Hit(list: string, name: string, i: nat) {
    StartsAt(list, i, name) && Delimited(list, name, i)
  }

  predicate Delimited(list: string, name: string, i: nat) {
    && i <= |list|
    && (i == 0 || list[i - 1] == ' ' || list[i - 1] == ';')
    && i + |name| < |list| && list[i + |name|] == '='
  }

  function FirstHit(list: string, name: string, from: nat): (r: Option<nat>)
    ensures r.Some? ==> from <= r.value < r.value + |name| + 1 <= |list| && Hit(list, name, r.value)
    ensures r.Some? ==> forall j :: from <= j < r.value ==> !Hit(list, name, j)
    ensures r.None? ==> forall j :: from <= j ==> !Hit(list, name, j)
    decreases |list| - from
  {
    if from >= |list| then None
    else if Hit(list, name, from) then Some(from)
    else FirstHit(list, name, from + 1)
  }

  lemma FirstHitIs(list: string, name: string, i: nat)
    requires Hit(list, name, i) && forall j :: 0 <= j < i ==> !Hit(list, name, j)
    ensures FirstHit(list, name, 0) == Some(i)
  {
  }

  function ValueFrom(list: string, i: nat): string
    requires i <= |list|
  {
    list[i..][..SpanLen(list[i..], VALUE_END)]
  }

  function ListValue(list: string, name: string): Option<string> {
    match FirstHit(list, name, 0)
    case None => None
    case Some(i) => Some(ValueFrom(list, i + |name| + 1))
  }

  function LineValue(line: string, name: string): Option<string> {
    if IsCookieLine(line) then ListValue(DropSpaces(line[7..]), name) else None
  }

  /** The value in the first cookie line that has the cookie. */
  function FirstValue(lines: seq<string>, name: string): Option<string> {
    if lines == [] then None
    else if LineValue(lines[0], name).Some? then LineValue(lines[0], name)
    else FirstValue(lines[1..], name)
  }

  /** What the extraction yields with an output buffer of `size` bytes. */
  function CookieLookup(buffer: string, name: string, size: nat): CookieResult {
    if size < 2 then Missing(125001)
    else if HeadEnd(buffer).None? then Missing(125003)
    else match FirstValue(Tokens(buffer[..HeadEnd(buffer).value], CRLF), name)
      case None => Missing(125009)
      case Some(v) => if |v| >= size then Missing(125005) else Found(v)
  }

  /** No separator inside the name: true of every "<type>_sess". */
  predicate PlainName(name: string) {
    name != [] && Free(name, {' ', ';', '='} + CRLF)
  }

  /** The C loop jumps a whole name length after a failed match; no later match
      can begin inside the jump. */
  lemma JumpLosesNothing(list: string, name: string, i: nat, j: nat)
    requires PlainName(name) && StartsAt(list, i, name)
    requires i < j < i + |name|
    ensures !Hit(list, name, j)
  {
    assert list[j - 1] == list[i..i + |name|][j - 1 - i] == name[j - 1 - i];
  }

  method ScanList(list: string, name: string) returns (r: Option<string>)
    requires PlainName(name)
    ensures r == ListValue(list, name)
  {
    hide StartsAt, SpanLen;
    var p := 0;
    var found := IndexOf(list, name, p);
    while found.Some?
      invariant p <= |list| && found == IndexOf(list, name, p)
      invariant forall j :: 0 <= j < p ==> !Hit(list, name, j)
      decreases |list| - p
    {
      var i := found.value;
      if Delimited(list, name, i) {
        FirstHitIs(list, name, i);
        return Some(ValueFrom(list, i + |name| + 1));
      }
      forall j | p <= j < i + |name| ensures !Hit(list, name, j) {
        if i < j { JumpLosesNothing(list, name, i, j); }
      }
      p := i + |name|;
      found := IndexOf(list, name, p);
    }
    return None;
  }

  /** Copies v and a terminating NUL, as memcpy and the final store do. */
  method CopyOut(out: array<char>, v: string)
    requires |v| < out.Length
    modifies out
    ensures out[..|v|] == v && out[|v|] == '\0'
  {
    var i := 0;
    while i < |v|
      invariant 0 <= i <= |v|
      invariant out[..i] == v[..i]
    {
      out[i] := v[i];
      i := i + 1;
    }
    out[|v|] := '\0';
  }

  /** strtok: the next line at or after `pos`, and where the scan goes on. */
  method NextLine(head: string, pos: nat) returns (line: Option<string>, next: nat)
    requires pos <= |head|
    ensures next <= |head|
    ensures line.None? ==> Tokens(head[pos..], CRLF) == []
    ensures line.Some? ==> pos < next && Tokens(head[pos..], CRLF) == [line.value] + Tokens(head[next..], CRLF)
  {
    hide Tokens, SpanLen;
    var start := pos;
    while start < |head| && head[start] in CRLF
      invariant pos <= start <= |head|
      invariant Tokens(head[pos..], CRLF) == Tokens(head[start..], CRLF)
    {
      SkipSeparator(head, CRLF, start);
      start := start + 1;
    }
    if start == |head| {
      assert head[start..] == "";
      NoTokens(CRLF);
      return None, start;
    }
    next := start;
    while next < |head| && head[next] !in CRLF
      invariant start <= next <= |head|
      invariant forall j :: start <= j < next ==> head[j] !in CRLF
    {
      next := next + 1;
    }
    TokenAt(head, CRLF, start, next);
    line := Some(head[start..next]);
  }

  method CookieExtract(buffer: string, out: array<char>, name: string) returns (rt: int)
    requires PlainName(name)
    modifies out
    ensures match CookieLookup(buffer, name, out.Length)
            case Found(v) => rt == 0 && |v| < out.Length && out[..|v|] == v && out[|v|] == '\0'
            case Missing(code) => rt == code && out[..] == old(out[..])
  {
    hide Tokens, ListValue, DropSpaces, IndexOf, StartsAt, PlainName;
    if out.Length < 2 { return 125001; }
    var end := HeadEnd(buffer);
    if end.None? { return 125003; }
    var head := buffer[..end.value];
    assert head[0..] == head;
    var line, pos := NextLine(head, 0);
    while line.Some?
      invariant pos <= |head|
      invariant FirstValue(Tokens(head, CRLF), name)
             == FirstValue(if line.None? then [] else [line.value] + Tokens(head[pos..], CRLF), name)
      invariant out[..] == old(out[..])
      decreases line.Some?, |head| - pos
    {
      if IsCookieLine(line.value) {
        var value := ScanList(DropSpaces(line.value[7..]), name);
        if value.Some? {
          if |value.value| >= out.Length { return 125005; }
          CopyOut(out, value.value);
          return 0;
        }
      }
      assert ([line.value] + Tokens(head[pos..], CRLF))[1..] == Tokens(head[pos..], CRLF);
      line, pos := NextLine(head, pos);
    }
    return 125009;
  }

  // ----- Rendered cookie lists, section 4.2.1 of RFC 6265 -----

  datatype Pair = Pair(name: string, value: string)

  predicate PairOk(p: Pair) {
    PlainName(p.name) && Free(p.value, VALUE_END)
  }

  function PairText(p: Pair): string {
    p.name + "=" + p.value
  }

  function RenderList(pairs: seq<Pair>): string {
    if pairs == [] then ""
    else if |pairs| == 1 then PairText(pairs[0])
    else PairText(pairs[0]) + "; " + RenderList(pairs[1..])
  }

  function PairLookup(pairs: seq<Pair>, name: string): Option<string> {
    if pairs == [] then None
    else if pairs[0].name == name then Some(pairs[0].value)
    else PairLookup(pairs[1..], name)
  }

  lemma PairChars(p: Pair)
    requires PairOk(p)
    ensures Free(PairText(p), {' ', ';'})
  {
    var text := PairText(p);
    forall i | 0 <= i < |text| ensures text[i] !in {' ', ';'} {
      if i < |p.name| { assert text[i] == p.name[i]; }
      else if i > |p.name| { assert text[i] == p.value[i - |p.name| - 1]; }
    }
  }

  /** At the start of the list the name is found exactly when it is the first pair's. */
  lemma HeadHit(p: Pair, rest: string, name: string)
    requires PairOk(p) && PlainName(name)
    ensures Hit(PairText(p) + rest, name, 0) <==> p.name == name
  {
    var list := PairText(p) + rest;
    var n := |p.name|;
    assert list[0..n] == p.name && list[n] == '=';
    if Hit(list, name, 0) {
      assert forall i :: 0 <= i < |name| ==> list[i] == name[i];
      assert forall i :: 0 <= i < n ==> list[i] == p.name[i];
      assert !(|name| < n);
      assert !(n < |name|);
    }
  }

  lemma NoHitInside(p: Pair, rest: string, name: string, j: nat)
    requires PairOk(p)
    requires 0 < j <= |PairText(p)|
    ensures !Hit(PairText(p) + rest, name, j)
  {
    PairChars(p);
    assert (PairText(p) + rest)[j - 1] == PairText(p)[j - 1];
  }

  lemma HeadValue(p: Pair, rest: string)
    requires PairOk(p)
    requires rest == "" || rest[0] == ';'
    ensures ValueFrom(PairText(p) + rest, |p.name| + 1) == p.value
  {
    var tail := (PairText(p) + rest)[|p.name| + 1..];
    assert tail == p.value + rest;
    assert forall i :: 0 <= i < |p.value| ==> tail[i] == p.value[i];
    SpanIs(tail, VALUE_END, |p.value|);
    assert tail[..|p.value|] == p.value;
  }

  /** Behind the first pair, matches are those of the remaining list. */
  lemma TailHit(front: string, list: string, name: string, j: nat)
    ensures Hit(front + "; " + list, name, |front| + 2 + j) <==> Hit(list, name, j)
  {
    var head := front + "; ";
    ShiftedStart(head, list, name, j);
    assert forall i :: 0 <= i < |list| ==> (head + list)[|head| + i] == list[i];
    assert (head + list)[|head| - 1] == ' ';
  }

  /** The space after a separator is no match either: no name starts with one. */
  lemma SpaceIsNoHit(front: string, list: string, name: string)
    requires PlainName(name)
    ensures !Hit(front + "; " + list, name, |front| + 1)
  {
    var whole, i := front + "; " + list, |front| + 1;
    assert whole[i] == ' ' != name[0];
  }

  /** The list stands in `whole` from k on, and no hit begins before it. */
  ghost predicate HitsFrom(whole: string, list: string, name: string, k: nat) {
    && k <= |whole| && whole[k..] == list
    && (forall j :: 0 <= j < k ==> !Hit(whole, name, j))
    && (forall j: nat :: Hit(list, name, j) <==> Hit(whole, name, k + j))
  }

  lemma ShiftedFound(whole: string, list: string, name: string, k: nat, i: nat)
    requires HitsFrom(whole, list, name, k) && FirstHit(list, name, 0) == Some(i)
    ensures FirstHit(whole, name, 0) == Some(k + i)
  {
    hide Hit, FirstHit;
    assert Hit(list, name, i);
    forall j | 0 <= j < k + i ensures !Hit(whole, name, j) {
      if j >= k { assert !Hit(list, name, j - k); }
    }
    FirstHitIs(whole, name, k + i);
  }

  lemma ShiftedMissing(whole: string, list: string, name: string, k: nat)
    requires HitsFrom(whole, list, name, k) && FirstHit(list, name, 0).None?
    ensures FirstHit(whole, name, 0).None?
  {
    hide Hit, FirstHit;
    forall j: nat ensures !Hit(whole, name, j) {
      if j >= k { assert !Hit(list, name, j - k); }
    }
  }

  lemma ShiftedValue(whole: string, list: string, name: string, k: nat)
    requires HitsFrom(whole, list, name, k)
    ensures ListValue(whole, name) == ListValue(list, name)
  {
    hide FirstHit, Hit, SpanLen;
    match FirstHit(list, name, 0)
    case None => ShiftedMissing(whole, list, name, k);
    case Some(i) =>
      ShiftedFound(whole, list, name, k, i);
      assert whole[k + i + |name| + 1..] == list[i + |name| + 1..];
  }

  lemma FrontMisses(p: Pair, list: string, name: string, j: nat)
    requires PairOk(p) && PlainName(name) && p.name != name
    requires j < |PairText(p)| + 2
    ensures !Hit(PairText(p) + "; " + list, name, j)
  {
    hide Hit;
    assert PairText(p) + "; " + list == PairText(p) + ("; " + list);
    if j == 0 { HeadHit(p, "; " + list, name); }
    else if j <= |PairText(p)| { NoHitInside(p, "; " + list, name, j); }
    else { SpaceIsNoHit(PairText(p), list, name); }
  }

  lemma OtherPairFirst(p: Pair, list: string, name: string)
    requires PairOk(p) && PlainName(name) && p.name != name
    ensures ListValue(PairText(p) + "; " + list, name) == ListValue(list, name)
  {
    hide Hit, ListValue;
    var front := PairText(p);
    var whole := front + "; " + list;
    forall j | 0 <= j < |front| + 2 ensures !Hit(whole, name, j) {
      FrontMisses(p, list, name, j);
    }
    forall j: nat ensures Hit(list, name, j) <==> Hit(whole, name, |front| + 2 + j) {
      TailHit(front, list, name, j);
    }
    ShiftedValue(whole, list, name, |front| + 2);
  }

  lemma {:induction false} ListUndoesRender(pairs: seq<Pair>, name: string)
    requires PlainName(name) && forall p :: p in pairs ==> PairOk(p)
    ensures ListValue(RenderList(pairs), name) == PairLookup(pairs, name)
    decreases |pairs|
  {
    if pairs == [] {
    } else if pairs[0].name == name {
      FirstPairWins(pairs, name);
    } else if |pairs| == 1 {
      LonePairMisses(pairs[0], name);
      assert PairLookup(pairs[1..], name).None?;
    } else {
      OtherPairFirst(pairs[0], RenderList(pairs[1..]), name);
      ListUndoesRender(pairs[1..], name);
    }
  }

  lemma FirstPairWins(pairs: seq<Pair>, name: string)
    requires pairs != [] && PairOk(pairs[0]) && PlainName(name) && pairs[0].name == name
    ensures ListValue(RenderList(pairs), name) == Some(pairs[0].value)
  {
    var rest := if |pairs| == 1 then "" else "; " + RenderList(pairs[1..]);
    var whole := PairText(pairs[0]) + rest;
    assert whole == RenderList(pairs);
    HeadHit(pairs[0], rest, name);
    HeadValue(pairs[0], rest);
    FirstHitIs(whole, name, 0);
  }

  lemma LonePairMisses(p: Pair, name: string)
    requires PairOk(p) && PlainName(name) && p.name != name
    ensures ListValue(PairText(p), name).None?
  {
    assert PairText(p) + "" == PairText(p);
    HeadHit(p, "", name);
    forall j | 0 < j <= |PairText(p)| ensures !Hit(PairText(p), name, j) {
      NoHitInside(p, "", name, j);
    }
  }

  /** A header line as a client writes it. */
  datatype Header = CookieHeader(pairs: seq<Pair>) | OtherHeader(line: string)

  predicate HeaderOk(h: Header) {
    match h
    case CookieHeader(pairs) => forall p :: p in pairs ==> PairOk(p)
    case OtherHeader(line) => LineOk(line) && !IsCookieLine(line)
  }

  function HeaderText(h: Header): string {
    match h
    case CookieHeader(pairs) => "Cookie: " + RenderList(pairs)
    case OtherHeader(line) => line
  }

  function HeaderTexts(hs: seq<Header>): (lines: seq<string>)
    ensures |lines| == |hs|
  {
    if hs == [] then [] else [HeaderText(hs[0])] + HeaderTexts(hs[1..])
  }

  /** The first value with exactly that name, line by line and pair by pair. */
  function HeaderLookup(hs: seq<Header>, name: string): Option<string> {
    if hs == [] then None
    else if hs[0].CookieHeader? && PairLookup(hs[0].pairs, name).Some? then PairLookup(hs[0].pairs, name)
    else HeaderLookup(hs[1..], name)
  }

  lemma PairIsPlain(p: Pair)
    requires PairOk(p)
    ensures Free(PairText(p), CRLF) && PairText(p)[0] != ' '
  {
    var text := PairText(p);
    assert text[0] == p.name[0];
    forall i | 0 <= i < |text| ensures text[i] !in CRLF {
      if i < |p.name| { assert text[i] == p.name[i]; }
      else if i > |p.name| { assert text[i] == p.value[i - |p.name| - 1]; }
    }
  }

  lemma {:induction false} RenderedListIsPlain(pairs: seq<Pair>)
    requires forall p :: p in pairs ==> PairOk(p)
    ensures Free(RenderList(pairs), CRLF)
    ensures RenderList(pairs) == "" || RenderList(pairs)[0] != ' '
    decreases |pairs|
  {
    if pairs != [] {
      PairIsPlain(pairs[0]);
      if |pairs| > 1 {
        RenderedListIsPlain(pairs[1..]);
        FreeCat(PairText(pairs[0]), "; ", CRLF);
        FreeCat(PairText(pairs[0]) + "; ", RenderList(pairs[1..]), CRLF);
      }
    }
  }

  lemma CookieLineValue(pairs: seq<Pair>, name: string)
    requires PlainName(name) && forall p :: p in pairs ==> PairOk(p)
    ensures LineOk("Cookie: " + RenderList(pairs))
    ensures LineValue("Cookie: " + RenderList(pairs), name) == PairLookup(pairs, name)
  {
    var list := RenderList(pairs);
    RenderedListIsPlain(pairs);
    FreeCat("Cookie: ", list, CRLF);
    CookieLineParts(list);
    ListUndoesRender(pairs, name);
  }

  lemma CookieLineParts(list: string)
    requires list == "" || list[0] != ' '
    ensures IsCookieLine("Cookie: " + list) && DropSpaces(("Cookie: " + list)[7..]) == list
  {
    var line := "Cookie: " + list;
    assert line[..7] == "Cookie:" && Lowered("Cookie:") == "cookie:";
    assert line[7..] == " " + list && (" " + list)[1..] == list;
  }

  lemma {:induction false} HeadersUndoRender(hs: seq<Header>, name: string)
    requires PlainName(name) && forall h :: h in hs ==> HeaderOk(h)
    ensures FirstValue(HeaderTexts(hs), name) == HeaderLookup(hs, name)
    decreases |hs|
  {
    hide ListValue, PairLookup, IsCookieLine, LineOk;
    if hs != [] {
      HeadersUndoRender(hs[1..], name);
      assert HeaderTexts(hs)[1..] == HeaderTexts(hs[1..]) && HeaderTexts(hs)[0] == HeaderText(hs[0]);
      assert HeaderOk(hs[0]);
      if hs[0].CookieHeader? { CookieLineValue(hs[0].pairs, name); }
    }
  }

  lemma HeaderIsLine(h: Header)
    requires HeaderOk(h)
    ensures LineOk(HeaderText(h))
  {
    if h.CookieHeader? { CookieLineValue(h.pairs, "x"); }
  }

  lemma {:induction false} HeadersAreLines(hs: seq<Header>)
    requires forall h :: h in hs ==> HeaderOk(h)
    ensures forall i :: 0 <= i < |hs| ==> LineOk(HeaderTexts(hs)[i])
    decreases |hs|
  {
    hide LineOk, HeaderOk, HeaderText;
    if hs != [] {
      HeadersAreLines(hs[1..]);
      HeaderIsLine(hs[0]);
      forall i | 0 <= i < |hs| ensures LineOk(HeaderTexts(hs)[i]) {
        if i > 0 { assert HeaderTexts(hs)[i] == HeaderTexts(hs[1..])[i - 1]; }
      }
    }
  }

  /** Extraction undoes rendering, for any headers, any body, any buffer size. */
  lemma ExtractionUndoesRendering(hs: seq<Header>, body: string, name: string, size: nat)
    requires hs != [] && PlainName(name) && forall h :: h in hs ==> HeaderOk(h)
    requires size >= 2
    ensures CookieLookup(MessageText(HeaderTexts(hs), body), name, size)
         == match HeaderLookup(hs, name)
            case None => Missing(125009)
            case Some(v) => if |v| >= size then Missing(125005) else Found(v)
  {
    var lines := HeaderTexts(hs);
    HeadersUndoRender(hs, name);
    HeadersAreLines(hs);
    BlankLineEndsHead(lines, body);
    TokensOfHead(lines);
  }

  // ----- What is found, for every buffer -----

  /** The line begins with "Cookie:", its letters in either case. */
  predicate CookieChars(line: string) {
    && |line| >= 7
    && line[0] in {'c', 'C'} && line[1] in {'o', 'O'} && line[2] in {'o', 'O'} && line[3] in {'k', 'K'}
    && line[4] in {'i', 'I'} && line[5] in {'e', 'E'} && line[6] == ':'
  }

  lemma CookieLineIsChars(line: string)
    ensures IsCookieLine(line) <==> CookieChars(line)
  {
    if |line| >= 7 {
      var head := Lowered(line[..7]);
      assert forall k :: 0 <= k < 7 ==> head[k] == ToLower(line[k]);
      if CookieChars(line) { assert head == "cookie:"; }
    }
  }

  /** The cookies begin at c, behind the spaces that follow the colon. */
  predicate CookiesFrom(line: string, c: nat) {
    7 <= c <= |line| && (forall j :: 7 <= j < c ==> line[j] == ' ') && (c < |line| ==> line[c] != ' ')
  }

  /** `name=` stands at i, at the first cookie or behind a space or a semicolon. */
  predicate NameAt(line: string, c: nat, name: string, i: nat) {
    && c <= i && i + |name| < |line| && line[i..i + |name|] == name && line[i + |name|] == '='
    && (i == c || line[i - 1] == ' ' || line[i - 1] == ';')
  }

  /** v stands from a on, up to a semicolon, a space or the end. */
  predicate ValueAt(line: string, a: nat, v: string) {
    && a + |v| <= |line| && line[a..a + |v|] == v
    && (forall j :: 0 <= j < |v| ==> v[j] !in {';', ' ', '\r', '\n'})
    && (a + |v| < |line| ==> line[a + |v|] in {';', ' ', '\r', '\n'})
  }

  predicate FirstNameAt(line: string, c: nat, name: string, i: nat) {
    NameAt(line, c, name, i) && forall j: nat :: j < i ==> !NameAt(line, c, name, j)
  }

  /** v is the value of the line's first cookie of that name. */
  ghost predicate Carries(line: string, name: string, v: string) {
    && CookieChars(line)
    && exists c: nat, i: nat ::
         CookiesFrom(line, c) && FirstNameAt(line, c, name, i) && ValueAt(line, i + |name| + 1, v)
  }

  lemma {:induction false} DroppedAreSpaces(s: string)
    ensures forall j :: 0 <= j < |s| - |DropSpaces(s)| ==> s[j] == ' '
    decreases |s|
  {
    if s != "" && s[0] == ' ' {
      DroppedAreSpaces(s[1..]);
      assert forall j :: 1 <= j < |s| ==> s[j] == s[1..][j - 1];
    }
  }

  lemma CookiesStart(line: string) returns (c: nat)
    requires |line| >= 7
    ensures CookiesFrom(line, c) && DropSpaces(line[7..]) == line[c..]
  {
    hide DropSpaces;
    var rest := line[7..];
    DroppedAreSpaces(rest);
    c := |line| - |DropSpaces(rest)|;
    assert forall j :: 7 <= j < c ==> line[j] == rest[j - 7];
    assert DropSpaces(rest) == rest[c - 7..] == line[c..];
  }

  lemma HitIsName(line: string, c: nat, name: string, i: nat)
    requires c <= |line|
    ensures Hit(line[c..], name, i) <==> NameAt(line, c, name, c + i)
  {
    var list := line[c..];
    if i + |name| < |list| {
      assert list[i..i + |name|] == line[c + i..c + i + |name|];
      assert i > 0 ==> list[i - 1] == line[c + i - 1];
    }
  }

  lemma ValueIs(line: string, c: nat, a: nat, v: string)
    requires c <= |line| && c + a <= |line|
    ensures ValueFrom(line[c..], a) == v <==> ValueAt(line, c + a, v)
  {
    var tail := line[c..][a..];
    assert tail == line[c + a..];
    var n := SpanLen(tail, VALUE_END);
    assert forall j :: 0 <= j < |tail| ==> tail[j] == line[c + a + j];
    assert tail[..n] == line[c + a..c + a + n];
    if ValueAt(line, c + a, v) {
      assert forall j :: 0 <= j < |v| ==> tail[j] == v[j];
      SpanIs(tail, VALUE_END, |v|);
      assert tail[..|v|] == v;
    }
  }

  lemma LineValueExactly(line: string, name: string, v: string)
    ensures LineValue(line, name) == Some(v) <==> Carries(line, name, v)
  {
    hide FirstNameAt, FirstHit, ListValue, CookieChars, IsCookieLine, DropSpaces;
    CookieLineIsChars(line);
    if CookieChars(line) {
      LongEnough(line);
      var c := CookiesStart(line);
      ListValueIs(line, c, name, v);
      forall c': nat | CookiesFrom(line, c') ensures c' == c {}
    }
  }

  lemma ListValueIs(line: string, c: nat, name: string, v: string)
    requires c <= |line|
    ensures ListValue(line[c..], name) == Some(v)
       <==> exists i: nat :: FirstNameAt(line, c, name, i) && ValueAt(line, i + |name| + 1, v)
  {
    hide FirstNameAt, FirstHit, ValueFrom, ValueAt;
    var first := FirstHit(line[c..], name, 0);
    FirstIs(line, c, name);
    if first.Some? {
      var i := c + first.value;
      ValueIs(line, c, first.value + |name| + 1, v);
      assert FirstNameAt(line, c, name, i) && c + (first.value + |name| + 1) == i + |name| + 1;
    }
  }

  lemma FirstIs(line: string, c: nat, name: string)
    requires c <= |line|
    ensures forall i: nat :: FirstNameAt(line, c, name, i) <==> c <= i && FirstHit(line[c..], name, 0) == Some(i - c)
  {
    hide Hit, NameAt;
    var list := line[c..];
    forall i: nat ensures Hit(list, name, i) <==> NameAt(line, c, name, c + i) { HitIsName(line, c, name, i); }
    forall j: nat | j < c ensures !NameAt(line, c, name, j) { NotBefore(line, c, name, j); }
    forall i: nat ensures FirstNameAt(line, c, name, i) <==> c <= i && FirstHit(list, name, 0) == Some(i - c) {
      if i >= c && FirstNameAt(line, c, name, i) {
        forall j | 0 <= j < i - c ensures !Hit(list, name, j) { assert !NameAt(line, c, name, c + j); }
        FirstHitIs(list, name, i - c);
      }
      if i >= c && FirstHit(list, name, 0) == Some(i - c) {
        forall j: nat | j < i ensures !NameAt(line, c, name, j) {
          if j >= c { assert !Hit(list, name, j - c); }
        }
      }
    }
  }

  lemma LongEnough(line: string)
    requires CookieChars(line)
    ensures |line| >= 7
  {
  }

  lemma NotBefore(line: string, c: nat, name: string, j: nat)
    requires j < c
    ensures !NameAt(line, c, name, j)
  {
  }

  predicate BlankLineAt(buffer: string, n: nat) {
    n + 4 <= |buffer| && buffer[n] == '\r' && buffer[n + 1] == '\n' && buffer[n + 2] == '\r' && buffer[n + 3] == '\n'
  }

  /** The first blank line stands at n. */
  predicate HeadEndsAt(buffer: string, n: nat) {
    BlankLineAt(buffer, n) && forall j: nat :: j < n ==> !BlankLineAt(buffer, j)
  }

  /** Line k is the first that has a cookie of that name, and v is its value. */
  ghost predicate FirstCarrier(lines: seq<string>, k: nat, name: string, v: string) {
    k < |lines| && Carries(lines[k], name, v) && forall j: nat, other :: j < k ==> !Carries(lines[j], name, other)
  }

  lemma {:induction false} FirstValueIs(lines: seq<string>, name: string, v: string)
    ensures FirstValue(lines, name) == Some(v) <==> exists k: nat :: FirstCarrier(lines, k, name, v)
    decreases |lines|
  {
    hide Carries, LineValue;
    if lines != [] {
      forall other ensures LineValue(lines[0], name) == Some(other) <==> Carries(lines[0], name, other) {
        LineValueExactly(lines[0], name, other);
      }
      FirstValueIs(lines[1..], name, v);
      if LineValue(lines[0], name).None? {
        forall k: nat ensures FirstCarrier(lines, k, name, v) <==> k > 0 && FirstCarrier(lines[1..], k - 1, name, v) {
          CarrierShifts(lines, k, name, v);
        }
        forall k: nat ensures FirstCarrier(lines, k + 1, name, v) <==> FirstCarrier(lines[1..], k, name, v) {
          CarrierShifts(lines, k + 1, name, v);
        }
      } else {
        var own := LineValue(lines[0], name).value;
        assert Carries(lines[0], name, own);
        if own == v { assert FirstCarrier(lines, 0, name, v); }
      }
    }
  }

  lemma CarrierShifts(lines: seq<string>, k: nat, name: string, v: string)
    requires lines != [] && forall other :: !Carries(lines[0], name, other)
    ensures FirstCarrier(lines, k, name, v) <==> k > 0 && FirstCarrier(lines[1..], k - 1, name, v)
  {
    hide Carries;
    assert forall j :: 0 < j < |lines| ==> lines[j] == lines[1..][j - 1];
    if k > 0 && FirstCarrier(lines, k, name, v) {
      forall j: nat, other | j < k - 1 ensures !Carries(lines[1..][j], name, other) {
        assert lines[1..][j] == lines[j + 1];
      }
    }
  }

  /** v is the value of the first cookie of that name in the first line that has one, among
      the lines before the first blank line. */
  ghost predicate CarriedIn(buffer: string, name: string, v: string) {
    exists n: nat, k: nat :: HeadEndsAt(buffer, n) && FirstCarrier(Tokens(buffer[..n], {'\r', '\n'}), k, name, v)
  }

  lemma CarriedIs(buffer: string, name: string, v: string)
    ensures CarriedIn(buffer, name, v)
       <==> HeadEnd(buffer).Some? && FirstValue(Tokens(buffer[..HeadEnd(buffer).value], CRLF), name) == Some(v)
  {
    hide Tokens, FirstValue, FirstCarrier, HeadEndsAt;
    HeadEndIs(buffer);
    if HeadEnd(buffer).Some? {
      var n := HeadEnd(buffer).value;
      var lines := Tokens(buffer[..n], CRLF);
      FirstValueIs(lines, name, v);
      if FirstValue(lines, name) == Some(v) {
        var k: nat :| FirstCarrier(lines, k, name, v);
        assert HeadEndsAt(buffer, n) && FirstCarrier(Tokens(buffer[..n], {'\r', '\n'}), k, name, v);
      }
      if CarriedIn(buffer, name, v) {
        var n': nat, k: nat :| HeadEndsAt(buffer, n') && FirstCarrier(Tokens(buffer[..n'], {'\r', '\n'}), k, name, v);
        assert n' == n;
        assert FirstCarrier(lines, k, name, v);
      }
    }
  }

  /** What is found, for every buffer, name and size. */
  lemma FoundExactly(buffer: string, name: string, size: nat, v: string)
    ensures CookieLookup(buffer, name, size) == Found(v)
       <==> 2 <= size && |v| < size && CarriedIn(buffer, name, v)
  {
    hide Tokens, FirstValue, CarriedIn, HeadEnd;
    CarriedIs(buffer, name, v);
  }

  /** And what is answered where nothing is found: no room for a text, no blank line, a value
      that is too long, no such cookie. */
  lemma MissingExactly(buffer: string, name: string, size: nat)
    ensures var r := CookieLookup(buffer, name, size);
            && (r == Missing(125001) <==> size < 2)
            && (r == Missing(125003) <==> size >= 2 && forall n: nat :: !HeadEndsAt(buffer, n))
            && (r == Missing(125005) <==> size >= 2 && exists v :: CarriedIn(buffer, name, v) && |v| >= size)
            && (r.Missing? ==> r.code in {125001, 125003, 125005, 125009})
  {
    hide Tokens, FirstValue, CarriedIn, HeadEndsAt;
    HeadEndIs(buffer);
    if HeadEnd(buffer).Some? {
      assert HeadEndsAt(buffer, HeadEnd(buffer).value);
      var value := FirstValue(Tokens(buffer[..HeadEnd(buffer).value], CRLF), name);
      forall v ensures CarriedIn(buffer, name, v) <==> value == Some(v) { CarriedIs(buffer, name, v); }
    } else {
      forall v ensures !CarriedIn(buffer, name, v) { CarriedIs(buffer, name, v); }
    }
  }

  lemma HeadEndIs(buffer: string)
    ensures forall n: nat :: HeadEndsAt(buffer, n) <==> HeadEnd(buffer) == Some(n)
    ensures forall n: nat :: HeadEndsAt(buffer, n) ==> n <= |buffer|
  {
    hide StartsAt, BlankLineAt;
    forall j: nat ensures StartsAt(buffer, j, BLANK_LINE) <==> BlankLineAt(buffer, j) { BlankIs(buffer, j); }
    forall n: nat | HeadEndsAt(buffer, n) ensures n <= |buffer| { WithinBuffer(buffer, n); }
    forall n: nat ensures HeadEndsAt(buffer, n) <==> HeadEnd(buffer) == Some(n) {
      if HeadEndsAt(buffer, n) { IndexIs(buffer, BLANK_LINE, 0, n); }
    }
  }

  lemma WithinBuffer(buffer: string, n: nat)
    requires BlankLineAt(buffer, n)
    ensures n <= |buffer|
  {
  }

  lemma BlankIs(buffer: string, j: nat)
    ensures StartsAt(buffer, j, BLANK_LINE) <==> BlankLineAt(buffer, j)
  {
    if j + 4 <= |buffer| {
      var four := buffer[j..j + 4];
      assert four[0] == buffer[j] && four[1] == buffer[j + 1] && four[2] == buffer[j + 2] && four[3] == buffer[j + 3];
    }
  }
}
