/** Text in fixed character buffers, as snprintf leaves it there. */
module CBuffer {
  import opened TextScan

  const NUL: set<char> := {'\0'}

  /** The text that C reads from a buffer: everything before the first NUL. */
  function CText(s: string): string {
    s[..SpanLen(s, NUL)]
  }

  lemma CTextIs(s: string, text: string)
    requires Free(text, NUL) && |text| < |s| && s[..|text|] == text && s[|text|] == '\0'
    ensures CText(s) == text
  {
    assert forall i :: 0 <= i < |text| ==> s[i] == s[..|text|][i];
    SpanIs(s, NUL, |text|);
  }

  lemma CTextPrefix(s: string, from: nat, end: nat)
    requires from <= end <= |CText(s)|
    ensures s[from..end] == CText(s)[from..end]
  {
  }

  /** snprintf(buf + at, size, "%s", text): writes what fits and a NUL, returns the
      length the text would have needed. */
  method Snprintf(buf: array<char>, at: nat, size: nat, text: string) returns (n: nat)
    requires 0 < size && at + size <= buf.Length
    modifies buf
    ensures n == |text|
    ensures buf[at..at + |Cut(text, size - 1)|] == Cut(text, size - 1)
    ensures buf[at + |Cut(text, size - 1)|] == '\0'
    ensures buf[..at] == old(buf[..at])
  {
    ghost var before := buf[..at];
    var i := 0;
    while i < |text| && i < size - 1
      invariant 0 <= i <= |text| && i <= size - 1
      invariant buf[at..at + i] == text[..i]
      invariant buf[..at] == before
    {
      buf[at + i] := text[i];
      assert buf[at..at + i + 1] == buf[at..at + i] + [text[i]];
      i := i + 1;
    }
    assert text[..i] == Cut(text, size - 1);
    buf[at + i] := '\0';
    return |text|;
  }

  /** snprintf over the whole buffer. */
  method PutText(buf: array<char>, text: string)
    requires buf.Length > 0 && Free(text, NUL)
    modifies buf
    ensures CText(buf[..]) == Cut(text, buf.Length - 1)
  {
    var _ := Snprintf(buf, 0, buf.Length, text);
    CutFree(text, buf.Length - 1, NUL);
    CTextIs(buf[..], Cut(text, buf.Length - 1));
  }

  /** snprintf(buf + strlen(buf), size - strlen(buf), ...): appends what still fits. */
  method AddText(buf: array<char>, more: string)
    requires |CText(buf[..])| < buf.Length && Free(more, NUL)
    modifies buf
    ensures CText(buf[..]) == Cut(old(CText(buf[..])) + more, buf.Length - 1)
  {
    ghost var kept := CText(buf[..]);
    var len := |CText(buf[..])|;
    var _ := Snprintf(buf, len, buf.Length - len, more);
    ghost var fits := Cut(more, buf.Length - len - 1);
    assert buf[..len + |fits|] == buf[..len] + buf[len..len + |fits|];
    CutFree(more, buf.Length - len - 1, NUL);
    FreeCat(kept, fits, NUL);
    CTextIs(buf[..], kept + fits);
    CutCat(kept, more, buf.Length - 1);
  }

  lemma CutCat(a: string, b: string, n: nat)
    requires |a| <= n
    ensures Cut(a + b, n) == a + Cut(b, n - |a|)
  {
  }
}
