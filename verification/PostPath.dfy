/** Reading the request line to decide the request type (src/check_post_type_path.c). */
module PostPath {
  import opened Common

  /** Overread: a byte at or behind position n was looked at. */
  datatype Verdict = Refused(code: int) | Accepted(ty: PostType) | Overread

  /** Length of the run of spaces that starts at `from`. */
  function SpacesAt(s: string, from: nat): (k: nat)
    requires from <= |s|
    ensures from + k <= |s|
    ensures forall i :: from <= i < from + k ==> s[i] == ' '
    ensures from + k < |s| ==> s[from + k] != ' '
    decreases |s| - from
  {
    if from == |s| || s[from] != ' ' then 0 else 1 + SpacesAt(s, from + 1)
  }

  const HTTP_MARK := "http/"

  /** "HTTP/" in any letter case stands at position i. */
  predicate HttpAt(s: string, i: nat) {
    i + 5 <= |s| && Lowered(s[i..i + 5]) == HTTP_MARK
  }

  function FirstHttp(s: string, from: nat): (r: Option<nat>)
    ensures r.Some? ==> from <= r.value && HttpAt(s, r.value)
    ensures r.Some? ==> forall j :: from <= j < r.value ==> !HttpAt(s, j)
    ensures r.None? ==> forall j :: from <= j ==> !HttpAt(s, j)
    decreases |s| - from
  {
    if from >= |s| then None
    else if HttpAt(s, from) then Some(from)
    else FirstHttp(s, from + 1)
  }

  function TrimRight(s: string): string {
    if s == "" || s[|s| - 1] != ' ' then s else TrimRight(s[..|s| - 1])
  }

  /** The text behind the last slash. */
  function LastSegment(path: string): string {
    if path == "" || path[|path| - 1] == '/' then ""
    else LastSegment(path[..|path| - 1]) + [path[|path| - 1]]
  }

  predicate Fits(ty: PostType, segment: string) {
    TypeStr(ty) <= segment
  }

  function SegmentVerdict(segment: string): Verdict {
    if Fits(Signup, segment) then Accepted(Signup)
    else if Fits(Login, segment) then Accepted(Login)
    else if Fits(Admin, segment) then Accepted(Admin)
    else Refused(-1410051)
  }

  function Classify(buffer: string): Verdict {
    if |buffer| < 8 then Refused(-1410001)
    else if buffer[..4] != "POST" then Refused(-1410011)
    else
      var start := 4 + SpacesAt(buffer, 4);
      if start >= |buffer| || buffer[start] != '/' then Refused(-1410021)
      else if |buffer| - start < 4 then Overread
      else match FirstHttp(buffer, start)
        case None => Refused(-1410031)
        case Some(h) => SegmentVerdict(LastSegment(TrimRight(buffer[start..h])))
  }

  /** The order of the type table does not matter: at most one pattern fits. */
  lemma FittingTypeIsUnique(a: PostType, b: PostType, segment: string)
    requires Fits(a, segment) && Fits(b, segment)
    ensures a == b
  {
    assert segment[0] == TypeStr(a)[0] == TypeStr(b)[0];
  }

  lemma SegmentVerdictIs(ty: PostType, segment: string)
    ensures SegmentVerdict(segment) == Accepted(ty) <==> Fits(ty, segment)
    ensures SegmentVerdict(segment) != Refused(-1410041)
  {
    forall other | Fits(other, segment) && Fits(ty, segment) ensures other == ty {
      FittingTypeIsUnique(other, ty, segment);
    }
  }

  /** The first "HTTP/" of the path part stands at h. */
  ghost predicate MarkAt(buffer: string, start: nat, h: nat) {
    start <= h && HttpAt(buffer, h) && forall j :: start <= j < h ==> !HttpAt(buffer, j)
  }

  /** Classification in one sentence: type ty exactly when the last segment before
      the first HTTP mark, trailing spaces dropped, begins with ty's name. */
  lemma ClassifyMeaning(buffer: string, start: nat, ty: PostType)
    requires |buffer| >= 8 && buffer[..4] == "POST"
    requires start == 4 + SpacesAt(buffer, 4) && start + 4 <= |buffer| && buffer[start] == '/'
    ensures Classify(buffer) == Accepted(ty)
       <==> exists h: nat :: MarkAt(buffer, start, h) && Fits(ty, LastSegment(TrimRight(buffer[start..h])))
    ensures Classify(buffer) != Refused(-1410041)
  {
    var first := FirstHttp(buffer, start);
    if first.Some? {
      assert MarkAt(buffer, start, first.value);
      SegmentVerdictIs(ty, LastSegment(TrimRight(buffer[start..first.value])));
      forall h: nat | MarkAt(buffer, start, h) ensures h == first.value {
        assert HttpAt(buffer, h) && HttpAt(buffer, first.value);
      }
    } else {
      assert forall h: nat :: !MarkAt(buffer, start, h);
    }
  }

  lemma LastSegmentIs(path: string, slash: nat)
    requires slash < |path| && path[slash] == '/'
    requires forall i :: slash < i < |path| ==> path[i] != '/'
    ensures LastSegment(path) == path[slash + 1..]
  {
    if slash < |path| - 1 {
      var shorter := path[..|path| - 1];
      LastSegmentIs(shorter, slash);
      assert shorter[slash + 1..] + [path[|path| - 1]] == path[slash + 1..];
    }
  }

  // ----- What the classification means, for every buffer -----

  /** "HTTP/" stands at i, its letters in either case. */
  predicate MarkChars(s: string, i: nat) {
    && i + 5 <= |s|
    && s[i] in {'h', 'H'} && s[i + 1] in {'t', 'T'} && s[i + 2] in {'t', 'T'} && s[i + 3] in {'p', 'P'}
    && s[i + 4] == '/'
  }

  /** Behind "POST" and spaces a path begins at `start`. */
  predicate PathAt(buffer: string, start: nat) {
    && |buffer| >= 8 && buffer[..4] == "POST"
    && 4 <= start < |buffer| && buffer[start] == '/'
    && forall i :: 4 <= i < start ==> buffer[i] == ' '
  }

  /** The path has its first mark at h, and `segment` is what stands between its last slash
      before the mark and the spaces in front of the mark. */
  ghost predicate SegmentAt(buffer: string, start: nat, h: nat, segment: string) {
    && start < h && MarkChars(buffer, h) && (forall j :: start <= j < h ==> !MarkChars(buffer, j))
    && exists slash: nat, end: nat :: Between(buffer, start, slash, end, h) && segment == buffer[slash + 1..end]
  }

  /** From the slash to `end` there is no other slash, and only spaces follow up to h. */
  predicate Between(buffer: string, start: nat, slash: nat, end: nat, h: nat) {
    && start <= slash < end <= h <= |buffer| && buffer[slash] == '/' && buffer[end - 1] != ' '
    && (forall j :: end <= j < h ==> buffer[j] == ' ') && (forall j :: slash < j < end ==> buffer[j] != '/')
  }

  /** No mark behind `start`. */
  ghost predicate Unmarked(s: string, start: nat) {
    forall h: nat :: start < h ==> !MarkChars(s, h)
  }

  lemma MarkIsChars(s: string, i: nat)
    ensures HttpAt(s, i) <==> MarkChars(s, i)
  {
    if i + 5 <= |s| {
      var five := Lowered(s[i..i + 5]);
      assert forall k :: 0 <= k < 5 ==> five[k] == ToLower(s[i + k]);
      if MarkChars(s, i) { assert five == HTTP_MARK; }
    }
  }

  lemma StartIs(buffer: string, start: nat)
    requires 4 <= start < |buffer| && buffer[start] != ' ' && forall i :: 4 <= i < start ==> buffer[i] == ' '
    ensures start == 4 + SpacesAt(buffer, 4)
  {
  }

  lemma {:induction false} TrimRightIs(s: string)
    ensures |TrimRight(s)| <= |s| && TrimRight(s) == s[..|TrimRight(s)|]
    ensures forall j :: |TrimRight(s)| <= j < |s| ==> s[j] == ' '
    ensures TrimRight(s) != "" ==> TrimRight(s)[|TrimRight(s)| - 1] != ' '
    decreases |s|
  {
    if s != "" && s[|s| - 1] == ' ' { TrimRightIs(s[..|s| - 1]); }
  }

  lemma LastSlash(path: string) returns (slash: nat)
    requires path != "" && path[0] == '/'
    ensures slash < |path| && path[slash] == '/' && forall j :: slash < j < |path| ==> path[j] != '/'
  {
    slash := |path| - 1;
    while path[slash] != '/'
      decreases slash
      invariant 0 <= slash < |path| && forall j :: slash < j < |path| ==> path[j] != '/'
    {
      slash := slash - 1;
    }
  }

  /** The scanner's segment is the one that the characters show. */
  lemma SegmentIs(buffer: string, start: nat, h: nat, segment: string)
    requires PathAt(buffer, start) && start < h <= |buffer| && MarkAt(buffer, start, h)
    ensures SegmentAt(buffer, start, h, segment) <==> segment == LastSegment(TrimRight(buffer[start..h]))
  {
    hide TrimRight, LastSegment, HttpAt, MarkChars;
    MarksAgree(buffer, start, h);
    var whole, path := buffer[start..h], TrimRight(buffer[start..h]);
    TrimRightIs(whole);
    assert path != "" by { assert whole[0] == '/'; }
    assert forall j :: 0 <= j < |path| ==> path[j] == buffer[start + j];
    var at := LastSlash(path);
    LastSegmentIs(path, at);
    var slash, end := start + at, start + |path|;
    assert forall j :: end <= j < h ==> buffer[j] == whole[j - start];
    assert path[at + 1..] == buffer[slash + 1..end];
    assert Between(buffer, start, slash, end, h);
    if SegmentAt(buffer, start, h, segment) {
      var slash': nat, end': nat :| Between(buffer, start, slash', end', h) && segment == buffer[slash' + 1..end'];
      assert end' == end;
      assert slash' == slash by { assert !(slash' < slash) && !(slash < slash'); }
    }
  }

  lemma MarksAgree(buffer: string, start: nat, h: nat)
    ensures MarkAt(buffer, start, h)
       <==> start <= h && MarkChars(buffer, h) && forall j :: start <= j < h ==> !MarkChars(buffer, j)
  {
    hide HttpAt, MarkChars;
    forall j | 0 <= j <= h ensures HttpAt(buffer, j) <==> MarkChars(buffer, j) { MarkIsChars(buffer, j); }
  }

  /** Which requests are accepted, for every buffer: exactly those that begin with "POST",
      spaces and a path, whose last segment before the first mark begins with the type's name. */
  lemma AcceptedExactly(buffer: string, ty: PostType)
    ensures Classify(buffer) == Accepted(ty)
       <==> exists start: nat, h: nat, segment: string ::
              PathAt(buffer, start) && start + 4 <= |buffer| && SegmentAt(buffer, start, h, segment)
              && (match ty case Signup => "signup" case Login => "login" case Admin => "admin") <= segment
  {
    hide HttpAt, MarkChars, TrimRight, LastSegment, SegmentAt, SpacesAt;
    if Classify(buffer) == Accepted(ty) {
      var start := 4 + SpacesAt(buffer, 4);
      ClassifyMeaning(buffer, start, ty);
      var h := FirstHttp(buffer, start).value;
      AfterSlash(buffer, start, h);
      SegmentIs(buffer, start, h, LastSegment(TrimRight(buffer[start..h])));
    }
    if start: nat, h: nat, segment: string :|
        PathAt(buffer, start) && start + 4 <= |buffer| && SegmentAt(buffer, start, h, segment)
        && (match ty case Signup => "signup" case Login => "login" case Admin => "admin") <= segment {
      StartIs(buffer, start);
      SegmentHasMark(buffer, start, h, segment);
      SegmentIs(buffer, start, h, segment);
      ClassifyMeaning(buffer, start, ty);
    }
  }

  lemma AfterSlash(buffer: string, start: nat, h: nat)
    requires start < |buffer| && buffer[start] == '/' && MarkAt(buffer, start, h)
    ensures start < h <= |buffer|
  {
    NoMarkAtSlash(buffer, start);
  }

  lemma SegmentHasMark(buffer: string, start: nat, h: nat, segment: string)
    requires SegmentAt(buffer, start, h, segment)
    ensures start < h <= |buffer| && MarkAt(buffer, start, h)
  {
    hide HttpAt;
    MarksAgree(buffer, start, h);
  }

  /** And what the others get: a code for each thing that is missing, in this order. */
  lemma RefusedExactly(buffer: string)
    ensures var v := Classify(buffer);
            && (v == Refused(-1410001) <==> |buffer| < 8)
            && (v == Refused(-1410011) <==> |buffer| >= 8 && buffer[..4] != "POST")
            && (v == Refused(-1410021) <==>
                  |buffer| >= 8 && buffer[..4] == "POST" && forall start: nat :: !PathAt(buffer, start))
            && (v.Overread? <==> exists start: nat :: PathAt(buffer, start) && start + 4 > |buffer|)
            && (v == Refused(-1410031) <==>
                  exists start: nat :: PathAt(buffer, start) && start + 4 <= |buffer| && Unmarked(buffer, start))
            && (v.Refused? ==> v.code in {-1410001, -1410011, -1410021, -1410031, -1410051})
  {
    hide HttpAt, MarkChars, TrimRight, LastSegment, Fits, SpacesAt;
    if |buffer| >= 8 && buffer[..4] == "POST" {
      var start := 4 + SpacesAt(buffer, 4);
      forall other | PathAt(buffer, other) ensures other == start { StartIs(buffer, other); }
      if start < |buffer| && buffer[start] == '/' {
        assert PathAt(buffer, start);
        NoMarkAtSlash(buffer, start);
        forall h: nat ensures HttpAt(buffer, h) <==> MarkChars(buffer, h) { MarkIsChars(buffer, h); }
      }
    }
  }

  /** A slash-led path that leaves fewer than four bytes of the buffer. */
  predicate PathTooShort(buffer: string) {
    && |buffer| >= 8 && buffer[..4] == "POST"
    && var start := 4 + SpacesAt(buffer, 4);
       |buffer| - 4 < start < |buffer| && buffer[start] == '/'
  }

  // ----- The scanner itself -----

  const SIZE_T := 0x1_0000_0000_0000_0000

  /** The thread's request type and the process-wide database index. */
  class ThreadState {
    var postType: Option<PostType>
    var postTypeStr: string
    var dbIdxIpCountX: int

    constructor ()
      ensures postType.None? && dbIdxIpCountX == -1
    {
      postType, postTypeStr, dbIdxIpCountX := None, "", -1;
    }

    /** Does "HTTP/" stand at `at`; `past` reports a look behind the buffer. */
    static method LookForHttp(buffer: string, at: nat) returns (hit: bool, past: bool)
      ensures !past ==> (hit <==> HttpAt(buffer, at))
      ensures past ==> !hit && at + 5 > |buffer|
      ensures at >= |buffer| ==> past
    {
      var k := 0;
      while k < 5
        invariant 0 <= k <= 5
        invariant at + k <= |buffer| || k == 0
        invariant forall j :: 0 <= j < k ==> ToLower(buffer[at + j]) == HTTP_MARK[j]
      {
        if at + k >= |buffer| { return false, true; }
        if ToLower(buffer[at + k]) != HTTP_MARK[k] {
          if at + 5 <= |buffer| { assert Lowered(buffer[at..at + 5])[k] != HTTP_MARK[k]; }
          return false, false;
        }
        k := k + 1;
      }
      return true, false;
    }

    /** The search for "HTTP/"; its loop bound is unsigned arithmetic that wraps
        when fewer than four bytes remain. */
    static method FindHttp(buffer: string, start: nat) returns (http: Option<nat>, past: bool)
      requires start < |buffer| < SIZE_T && !HttpAt(buffer, start)
      ensures past <==> |buffer| - start < 4
      ensures !past ==> http == FirstHttp(buffer, start)
      ensures http.Some? ==> MarkAt(buffer, start, http.value)
    {
      var n := |buffer|;
      var bound := (n - start - 4) % SIZE_T;
      var i := 0;
      while i < bound
        invariant 0 <= i && (n - start >= 4 ==> i <= bound)
        invariant n - start < 4 ==> i <= n - start
        invariant forall j :: start <= j < start + i ==> !HttpAt(buffer, j)
      {
        var hit;
        hit, past := LookForHttp(buffer, start + i);
        if past { return None, true; }
        if hit {
          assert MarkAt(buffer, start, start + i);
          return Some(start + i), false;
        }
        i := i + 1;
      }
      return None, false;
    }

    /** Walks back over spaces, then back to the last slash. */
    static method CutSegment(buffer: string, start: nat, http: nat) returns (segment: string)
      requires start < http <= |buffer| && buffer[start] == '/'
      ensures segment == LastSegment(TrimRight(buffer[start..http]))
    {
      var end := http;
      while end > start && buffer[end - 1] == ' '
        invariant start < end <= http
        invariant TrimRight(buffer[start..end]) == TrimRight(buffer[start..http])
      {
        assert buffer[start..end][..end - start - 1] == buffer[start..end - 1];
        end := end - 1;
      }
      var path := buffer[start..end];
      var slash := |path| - 1;
      while slash >= 0 && path[slash] != '/'
        invariant 0 <= slash < |path|
        invariant forall j :: slash < j < |path| ==> path[j] != '/'
      {
        slash := slash - 1;
      }
      segment := path[slash + 1..];
      LastSegmentIs(path, slash);
    }

    /** Walks the type table; a match sets the thread's type and the shared index. */
    method MatchSegment(segment: string) returns (v: Verdict)
      modifies this
      ensures v == SegmentVerdict(segment)
      ensures Settled(v) || (!v.Accepted? && unchanged(this))
    {
      var types := [Signup, Login, Admin];
      var i := 0;
      while i < |types|
        invariant 0 <= i <= |types|
        invariant forall j :: 0 <= j < i ==> !Fits(types[j], segment)
        invariant unchanged(this)
      {
        var ty := types[i];
        if |TypeStr(ty)| <= |segment| && segment[..|TypeStr(ty)|] == TypeStr(ty) {
          postType, postTypeStr, dbIdxIpCountX := Some(ty), TypeStr(ty), IpCountDb(ty);
          SegmentVerdictIs(ty, segment);
          return Accepted(ty);
        }
        i := i + 1;
      }
      assert !Fits(types[0], segment) && !Fits(types[1], segment) && !Fits(types[2], segment);
      return Refused(-1410051);
    }

    predicate Settled(v: Verdict)
      reads this
    {
      v.Accepted? && postType == Some(v.ty) && postTypeStr == TypeStr(v.ty) && dbIdxIpCountX == IpCountDb(v.ty)
    }

    /** The whole scan. It looks at a byte behind the buffer, which LookForHttp reports and
        FindHttp passes on, exactly for the paths that are too short. */
    method CheckPostTypePath(buffer: string) returns (v: Verdict)
      requires |buffer| < SIZE_T
      modifies this
      ensures v == Classify(buffer)
      ensures v.Overread? <==> PathTooShort(buffer)
      ensures Settled(v) || (!v.Accepted? && unchanged(this))
    {
      var n := |buffer|;
      if n < 8 { return Refused(-1410001); }
      if buffer[..4] != "POST" { return Refused(-1410011); }
      var start := 4;
      while start < n && buffer[start] == ' '
        invariant 4 <= start <= n
        invariant start + SpacesAt(buffer, start) == 4 + SpacesAt(buffer, 4)
        invariant unchanged(this)
      {
        start := start + 1;
      }
      if start >= n || buffer[start] != '/' { return Refused(-1410021); }
      NoMarkAtSlash(buffer, start);
      var http, past := FindHttp(buffer, start);
      if past { return Overread; }
      if http.None? { return Refused(-1410031); }
      var segment := CutSegment(buffer, start, http.value);
      v := MatchSegment(segment);
    }
  }

  lemma NoMarkAtSlash(buffer: string, start: nat)
    requires start < |buffer| && buffer[start] == '/'
    ensures !HttpAt(buffer, start)
  {
    if start + 5 <= |buffer| { assert Lowered(buffer[start..start + 5])[0] == '/'; }
  }

  /** No "HTTP/" of any letter case stands in this text. */
  predicate Markless(path: string) {
    forall i :: 0 <= i < |path| ==> !HttpAt(path, i)
  }

  lemma MarkDiffers(s: string, i: nat, k: nat)
    requires k < 5 && i + 5 <= |s| && ToLower(s[i + k]) != HTTP_MARK[k]
    ensures !HttpAt(s, i)
  {
    assert Lowered(s[i..i + 5])[k] == ToLower(s[i + k]);
  }

  /** Behind a directory without a mark the name of a type makes none. */
  lemma MarklessPath(dir: string, ty: PostType)
    requires Markless(dir)
    ensures Markless(dir + TypeStr(ty))
  {
    var path := dir + TypeStr(ty);
    forall i | 0 <= i < |path| ensures !HttpAt(path, i) {
      if i + 5 <= |dir| {
        assert !HttpAt(dir, i) && path[i..i + 5] == dir[i..i + 5];
      } else if i + 5 <= |path| {
        assert path[i + 4] == TypeStr(ty)[i + 4 - |dir|] != '/';
        MarkDiffers(path, i, 4);
      }
    }
  }

  lemma NoEarlyMark(path: string, tail: string, j: nat)
    requires Markless(path) && j <= |path|
    ensures !HttpAt(path + " " + tail, j)
  {
    var text := path + " " + tail;
    if j + 5 <= |path| {
      assert !HttpAt(path, j) && text[j..j + 5] == path[j..j + 5];
    } else if j + 5 <= |text| {
      assert text[|path|] == ' ' != HTTP_MARK[|path| - j];
      MarkDiffers(text, j, |path| - j);
    }
  }

  lemma ShiftedMark(front: string, text: string, j: nat)
    ensures HttpAt(front + text, |front| + j) <==> HttpAt(text, j)
  {
    if j + 5 <= |text| {
      assert (front + text)[|front| + j..|front| + j + 5] == text[j..j + 5];
    }
  }

  lemma MarkBehindPath(front: string, path: string, tail: string)
    requires Markless(path) && |tail| >= 5 && tail[..5] == "HTTP/"
    ensures MarkAt(front + (path + " " + tail), |front|, |front| + |path| + 1)
  {
    var text, h := path + " " + tail, |path| + 1;
    assert text[h..h + 5] == tail[..5] && Lowered("HTTP/") == HTTP_MARK;
    ShiftedMark(front, text, h);
    forall j | |front| <= j < |front| + h ensures !HttpAt(front + text, j) {
      NoEarlyMark(path, tail, j - |front|);
      ShiftedMark(front, text, j - |front|);
    }
  }

  lemma MarkIsFirst(buffer: string, start: nat, h: nat)
    requires MarkAt(buffer, start, h)
    ensures FirstHttp(buffer, start) == Some(h)
  {
    assert FirstHttp(buffer, start).Some?;
  }

  lemma TrimOneSpace(path: string)
    requires path != "" && path[|path| - 1] != ' '
    ensures TrimRight(path + " ") == path
  {
    assert (path + " ")[..|path|] == path;
    assert TrimRight(path) == path;
  }

  lemma SegmentOfPath(dir: string, ty: PostType)
    requires dir != "" && dir[|dir| - 1] == '/'
    ensures LastSegment(TrimRight(dir + TypeStr(ty) + " ")) == TypeStr(ty)
  {
    hide TrimRight, LastSegment;
    var path := dir + TypeStr(ty);
    assert path[|path| - 1] == TypeStr(ty)[|TypeStr(ty)| - 1] != ' ';
    TrimOneSpace(path);
    forall i | |dir| - 1 < i < |path| ensures path[i] != '/' {
      assert path[i] == TypeStr(ty)[i - |dir|];
    }
    LastSegmentIs(path, |dir| - 1);
    assert path[|dir|..] == TypeStr(ty);
  }

  /** The request line a browser sends is classified as intended. */
  lemma ClientLineClassified(dir: string, ty: PostType, rest: string)
    requires dir != "" && dir[0] == '/' && dir[|dir| - 1] == '/' && Markless(dir)
    ensures Classify("POST " + (dir + TypeStr(ty) + " " + ("HTTP/1.1" + rest))) == Accepted(ty)
  {
    hide HttpAt, FirstHttp, SpacesAt, LastSegment, TrimRight, SegmentVerdict, MarkAt, Markless;
    var path, tail := dir + TypeStr(ty), "HTTP/1.1" + rest;
    var text := path + " " + tail;
    var buffer := "POST " + text;
    assert tail[..5] == "HTTP/";
    MarklessPath(dir, ty);
    MarkBehindPath("POST ", path, tail);
    MarkIsFirst(buffer, 5, 5 + |path| + 1);
    SpacesAfterPost(text);
    assert text[0] == dir[0];
    assert buffer[5..5 + |path| + 1] == path + " ";
    SegmentOfPath(dir, ty);
    SegmentVerdictIs(ty, TypeStr(ty));
  }

  lemma SpacesAfterPost(text: string)
    requires text != "" && text[0] != ' '
    ensures ("POST " + text)[..4] == "POST" && SpacesAt("POST " + text, 4) == 1
  {
    var buffer := "POST " + text;
    assert buffer[4] == ' ' && buffer[5] == text[0];
    assert SpacesAt(buffer, 4) == 1 + SpacesAt(buffer, 5);
  }
}
