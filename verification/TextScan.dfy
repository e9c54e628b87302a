/** Searching and splitting text: the declarative counterparts of memmem, strstr,
    strpbrk, strtok and of the store client's split on spaces. */
module TextScan {
  import opened Common

  predicate StartsAt(s: string, i: nat, p: string) {
    i + |p| <= |s| && s[i..i + |p|] == p
  }

  lemma DiffersAt(s: string, i: nat, p: string, k: nat)
    requires k < |p| && (i + |p| <= |s| ==> s[i + k] != p[k])
    ensures !StartsAt(s, i, p)
  {
    if i + |p| <= |s| { assert s[i..i + |p|][k] == s[i + k]; }
  }

  /** The first position at or after `from` where p occurs. */
  function IndexOf(s: string, p: string, from: nat): (r: Option<nat>)
    ensures r.Some? ==> from <= r.value <= r.value + |p| <= |s| && StartsAt(s, r.value, p)
    ensures r.Some? ==> forall j :: from <= j < r.value ==> !StartsAt(s, j, p)
    ensures r.None? ==> forall j :: from <= j ==> !StartsAt(s, j, p)
    decreases |s| - from
  {
    if from + |p| > |s| then None
    else if StartsAt(s, from, p) then Some(from)
    else if from == |s| then None
    else IndexOf(s, p, from + 1)
  }

  lemma IndexIs(s: string, p: string, from: nat, i: nat)
    requires from <= i && StartsAt(s, i, p)
    requires forall j :: from <= j < i ==> !StartsAt(s, j, p)
    ensures IndexOf(s, p, from) == Some(i)
  {
  }

  /** How many leading characters are outside `seps`. */
  function SpanLen(s: string, seps: set<char>): (n: nat)
    ensures n <= |s|
    ensures forall i :: 0 <= i < n ==> s[i] !in seps
    ensures n < |s| ==> s[n] in seps
  {
    if s == [] || s[0] in seps then 0 else 1 + SpanLen(s[1..], seps)
  }

  predicate Free(s: string, seps: set<char>) {
    forall i :: 0 <= i < |s| ==> s[i] !in seps
  }

  lemma FreeCat(a: string, b: string, seps: set<char>)
    requires Free(a, seps) && Free(b, seps)
    ensures Free(a + b, seps)
  {
  }

  lemma SpanIs(s: string, seps: set<char>, n: nat)
    requires n <= |s| && forall i :: 0 <= i < n ==> s[i] !in seps
    requires n < |s| ==> s[n] in seps
    ensures SpanLen(s, seps) == n
  {
  }

  /** The maximal runs of characters outside `seps`, in order. */
  function Tokens(s: string, seps: set<char>): seq<string>
    decreases |s|
  {
    if s == [] then []
    else if s[0] in seps then Tokens(s[1..], seps)
    else
      var n := SpanLen(s, seps);
      [s[..n]] + Tokens(s[n..], seps)
  }

  lemma NoTokens(seps: set<char>)
    ensures Tokens("", seps) == []
  {
  }

  lemma SkipSeparator(s: string, seps: set<char>, i: nat)
    requires i < |s| && s[i] in seps
    ensures Tokens(s[i..], seps) == Tokens(s[i + 1..], seps)
  {
    assert s[i..][1..] == s[i + 1..];
  }

  lemma TokenAt(s: string, seps: set<char>, i: nat, j: nat)
    requires i < j <= |s| && forall k :: i <= k < j ==> s[k] !in seps
    requires j < |s| ==> s[j] in seps
    ensures Tokens(s[i..], seps) == [s[i..j]] + Tokens(s[j..], seps)
  {
    var rest := s[i..];
    SpanIs(rest, seps, j - i);
    assert rest[..j - i] == s[i..j] && rest[j - i..] == s[j..];
  }

  /** At most n characters of s, as "%.ns" prints them. */
  function Cut(s: string, n: nat): string {
    if |s| <= n then s else s[..n]
  }

  lemma CutFree(s: string, n: nat, seps: set<char>)
    requires Free(s, seps)
    ensures Free(Cut(s, n), seps)
  {
  }
}
