// The SPF recognisers against the grammar of section 7.1 of RFC 7208, on lower-cased text.
module Spf {
  // ------------------------------------------------------------------- the grammar

  predicate IsAlpha(c: char) { 'a' <= c <= 'z' }
  predicate IsDigit(c: char) { '0' <= c <= '9' }
  predicate IsAlnum(c: char) { IsAlpha(c) || IsDigit(c) }
  predicate IsLiteral(c: char) { '!' <= c <= '~' && c != '%' }
  predicate IsLetter(c: char) { c in "slodipvh" }
  predicate IsDelimiter(c: char) { c in ".-+,/_=" }

  predicate DigitsIn(s: string, i: int, j: int)
    requires 0 <= i <= j <= |s|
  {
    forall k :: i <= k < j ==> IsDigit(s[k])
  }

  predicate DelimitersIn(s: string, i: int, j: int)
    requires 0 <= i <= j <= |s|
  {
    forall k :: i <= k < j ==> IsDelimiter(s[k])
  }

  predicate NonZeroIn(s: string, i: int, j: int)
    requires 0 <= i <= j <= |s|
  {
    exists k :: i <= k < j && s[k] != '0'
  }

  predicate Alnums(s: string) { forall i :: 0 <= i < |s| ==> IsAlnum(s[i]) }
  predicate AlnumsOrHyphens(s: string) { forall i :: 0 <= i < |s| ==> IsAlnum(s[i]) || s[i] == '-' }

  // A letter, digits up to i that are not all zero, an optional reversal up to j, delimiters.
  predicate BodySplit(b: string, i: int, j: int) {
    && 1 <= i <= j <= |b| && IsLetter(b[0])
    && DigitsIn(b, 1, i) && (i > 1 ==> NonZeroIn(b, 1, i))
    && (j == i || (j == i + 1 && b[i] == 'r')) && DelimitersIn(b, j, |b|)
  }

  ghost predicate MacroBody(b: string) { exists i, j :: BodySplit(b, i, j) }

  ghost predicate MacroExpand(s: string) {
    s in {"%%", "%_", "%-"} || (|s| >= 3 && s[0] == '%' && s[1] == '{' && s[|s| - 1] == '}' && MacroBody(s[2..|s| - 1]))
  }

  ghost predicate Token(s: string) { MacroExpand(s) || (|s| == 1 && IsLiteral(s[0])) }

  ghost predicate MacroString(s: string)
    decreases |s|
  {
    s == "" || exists j :: 0 <= j < |s| && MacroString(s[..j]) && Token(s[j..])
  }

  ghost predicate TopLabel(s: string) {
    && |s| <= 63
    && ((Alnums(s) && exists i :: 0 <= i < |s| && IsAlpha(s[i])) || exists h :: Hyphenated(s, h))
  }

  // Alphanumerics, a hyphen at h, anything, a last alphanumeric.
  predicate Hyphenated(s: string, h: int) {
    0 < h < |s| - 1 && s[h] == '-' && Alnums(s[..h]) && AlnumsOrHyphens(s[h + 1..|s| - 1]) && IsAlnum(s[|s| - 1])
  }

  ghost predicate DottedLabel(s: string) {
    |s| >= 1 && s[0] == '.' && (TopLabel(s[1..]) || (s[|s| - 1] == '.' && |s| >= 2 && TopLabel(s[1..|s| - 1])))
  }

  ghost predicate DomainEnd(s: string) { MacroExpand(s) || DottedLabel(s) }

  ghost predicate DomainSpecAt(s: string, k: nat) { k <= |s| && MacroString(s[..k]) && DomainEnd(s[k..]) }

  ghost predicate DomainSpec(s: string) { exists k: nat :: DomainSpecAt(s, k) }

  // ------------------------------------------------------------------ one macro

  // A body has one reading, the greedy one.
  lemma SplitIsGreedy(b: string, i: int, x: int, y: int)
    requires 1 <= i <= |b| && DigitsIn(b, 1, i) && (i < |b| ==> !IsDigit(b[i])) && BodySplit(b, x, y)
    ensures x == i && y == if i < |b| && b[i] == 'r' then i + 1 else i
  {
  }

  method ScanBody(b: string) returns (ok: bool)
    ensures ok <==> MacroBody(b)
  {
    if b == "" || !IsLetter(b[0]) {
      return false;
    }
    var index, nonzero := 1, false;
    while index < |b| && IsDigit(b[index])
      invariant 1 <= index <= |b| && DigitsIn(b, 1, index)
      invariant nonzero <==> NonZeroIn(b, 1, index)
    {
      nonzero := nonzero || b[index] != '0';
      index := index + 1;
    }
    ghost var i := index;
    forall x, y | BodySplit(b, x, y) ensures x == i && y == if i < |b| && b[i] == 'r' then i + 1 else i {
      SplitIsGreedy(b, i, x, y);
    }
    if index > 1 && !nonzero {
      return false;
    }
    if index < |b| && b[index] == 'r' {
      index := index + 1;
    }
    ghost var j := index;
    while index < |b| && IsDelimiter(b[index])
      invariant j <= index <= |b| && DelimitersIn(b, j, index)
    {
      index := index + 1;
    }
    ok := index == |b|;
    assert ok ==> BodySplit(b, i, j);
  }

  // The length of the macro at the front of s, or 0.
  ghost function MacroLength(s: string): (n: nat)
    ensures n <= |s|
  {
    if |s| < 2 || s[0] != '%' then 0
    else if s[1] in {'%', '_', '-'} then 2
    else if s[1] != '{' then 0
    else
      var e := Brace(s, 2);
      if e < |s| && MacroBody(s[2..e]) then e + 1 else 0
  }

  // The first closing brace at or after i.
  function Brace(s: string, i: nat): (e: nat)
    requires i <= |s|
    ensures i <= e <= |s| && (e < |s| ==> s[e] == '}') && forall k :: i <= k < e ==> s[k] != '}'
    decreases |s| - i
  {
    if i == |s| || s[i] == '}' then i else Brace(s, i + 1)
  }

  lemma BodyHasNoBrace(b: string)
    requires MacroBody(b)
    ensures forall k :: 0 <= k < |b| ==> b[k] != '}'
  {
  }

  lemma BraceIs(s: string, e: nat)
    requires 2 <= e < |s| && s[e] == '}' && forall k :: 2 <= k < e ==> s[k] != '}'
    ensures Brace(s, 2) == e
  {
  }

  lemma ExpandIsMeasured(s: string, n: nat)
    requires 0 < n <= |s| && MacroExpand(s[..n])
    ensures MacroLength(s) == n
  {
    var t := s[..n];
    assert t[0] == s[0] && n >= 2 && t[1] == s[1];
    if t !in {"%%", "%_", "%-"} {
      var body := t[2..n - 1];
      assert body == s[2..n - 1] && t[n - 1] == s[n - 1];
      BodyHasNoBrace(body);
      forall k | 2 <= k < n - 1 ensures s[k] != '}' { assert s[k] == body[k - 2]; }
      BraceIs(s, n - 1);
    }
  }

  lemma MeasuredIsExpand(s: string, n: nat)
    requires 0 < n <= |s| && MacroLength(s) == n
    ensures MacroExpand(s[..n])
  {
    var t := s[..n];
    assert t[0] == s[0] && t[1] == s[1];
    if s[1] == '{' {
      assert t[2..n - 1] == s[2..Brace(s, 2)] && t[n - 1] == s[n - 1];
    } else {
      assert t == [s[0], s[1]];
    }
  }

  // MacroLength measures exactly the macro the grammar derives.
  lemma MacroLengthExact(s: string, n: nat)
    requires 0 < n <= |s|
    ensures MacroExpand(s[..n]) <==> MacroLength(s) == n
  {
    if MacroExpand(s[..n]) {
      ExpandIsMeasured(s, n);
    }
    if MacroLength(s) == n {
      MeasuredIsExpand(s, n);
    }
  }

  // validSPFMacro
  method ValidMacro(value: string, start: nat) returns (next: nat, ok: bool)
    requires start < |value| && value[start] == '%'
    ensures ok <==> MacroLength(value[start..]) > 0
    ensures ok ==> next == start + MacroLength(value[start..])
  {
    next, ok := 0, false;
    ghost var s := value[start..];
    if start + 1 >= |value| {
      return;
    }
    assert s[1] == value[start + 1];
    if value[start + 1] in {'%', '_', '-'} {
      return start + 2, true;
    }
    if value[start + 1] != '{' {
      return;
    }
    var end := start + 2;
    while end < |value| && value[end] != '}'
      invariant start + 2 <= end <= |value| && forall k :: start + 2 <= k < end ==> value[k] != '}'
      decreases |value| - end
    {
      end := end + 1;
    }
    assert Brace(s, 2) == end - start by {
      assert forall k :: 2 <= k < end - start ==> s[k] != '}';
    }
    if end == |value| {
      return;
    }
    assert value[start + 2..end] == s[2..end - start];
    ok := ScanBody(value[start + 2..end]);
    next := end + 1;
  }

  // ------------------------------------------------------------- token boundaries

  // Where the token at i ends, or i when none starts there.
  ghost function TokenEnd(s: string, i: nat): (j: nat)
    requires i <= |s|
    ensures i <= j <= |s|
  {
    if i == |s| then i
    else if s[i] == '%' then i + MacroLength(s[i..])
    else if IsLiteral(s[i]) then i + 1 else i
  }

  lemma TokenEndExact(s: string, i: nat, j: nat)
    requires i < j <= |s|
    ensures Token(s[i..j]) <==> TokenEnd(s, i) == j
  {
    assert s[i..j] == s[i..][..j - i];
    MacroLengthExact(s[i..], j - i);
    assert s[i..j][0] == s[i];
  }

  // Where tokens start or end when scanning from i.
  ghost function Stops(s: string, i: nat): (r: set<nat>)
    requires i <= |s|
    ensures i in r && forall k :: k in r ==> i <= k <= |s|
    decreases |s| - i
  {
    {i} + if TokenEnd(s, i) > i then Stops(s, TokenEnd(s, i)) else {}
  }

  ghost predicate Boundary(s: string, k: nat) { k in Stops(s, 0) }

  lemma {:induction false} StopsGoOn(s: string, i: nat, k: nat)
    requires i <= |s| && k in Stops(s, i) && TokenEnd(s, k) > k
    ensures TokenEnd(s, k) in Stops(s, i)
    decreases |s| - i
  {
    if k != i {
      StopsGoOn(s, TokenEnd(s, i), k);
    }
  }

  lemma {:induction false} StopsComeFrom(s: string, i: nat, k: nat) returns (j: nat)
    requires i < k <= |s| && k in Stops(s, i)
    ensures j < k && j in Stops(s, i) && TokenEnd(s, j) == k
    decreases |s| - i
  {
    j := i;
    if k != TokenEnd(s, i) {
      j := StopsComeFrom(s, TokenEnd(s, i), k);
    }
  }

  lemma {:induction false} StopsDoNotOverlap(s: string, i: nat, a: nat, b: nat)
    requires i <= |s| && a in Stops(s, i) && b in Stops(s, i) && a < b
    ensures a < TokenEnd(s, a) <= b
    decreases |s| - i
  {
    if a != i {
      StopsDoNotOverlap(s, TokenEnd(s, i), a, b);
    }
  }

  lemma LastToken(s: string, k: nat) returns (j: nat)
    requires 0 < k && Boundary(s, k)
    ensures j < k <= |s| && Boundary(s, j) && TokenEnd(s, j) == k
  {
    j := StopsComeFrom(s, 0, k);
  }

  // Macro strings end at token boundaries and only there.
  lemma {:induction false} BoundaryIsMacroString(s: string, k: nat)
    requires k <= |s|
    ensures Boundary(s, k) <==> MacroString(s[..k])
    decreases k
  {
    if k > 0 {
      if Boundary(s, k) {
        var j := LastToken(s, k);
        PrefixToken(s, j, k);
        BoundaryIsMacroString(s, j);
        MacroStringExtends(s[..k], j);
      }
      if MacroString(s[..k]) {
        var j := MacroStringEnds(s[..k]);
        PrefixToken(s, j, k);
        BoundaryIsMacroString(s, j);
        NextBoundary(s, j);
      }
    }
  }

  lemma PrefixToken(s: string, j: nat, k: nat)
    requires j < k <= |s|
    ensures s[..k][..j] == s[..j] && (TokenEnd(s, j) == k <==> Token(s[..k][j..]))
  {
    assert s[..k][j..] == s[j..k];
    TokenEndExact(s, j, k);
  }

  lemma MacroStringExtends(t: string, j: nat)
    requires j < |t| && MacroString(t[..j]) && Token(t[j..])
    ensures MacroString(t)
  {
  }

  lemma MacroStringEnds(t: string) returns (j: nat)
    requires t != "" && MacroString(t)
    ensures j < |t| && MacroString(t[..j]) && Token(t[j..])
  {
    j :| 0 <= j < |t| && MacroString(t[..j]) && Token(t[j..]);
  }

  // Tokens do not overlap: the token at a boundary ends at or before the next boundary.
  lemma NoSkip(s: string, a: nat, b: nat)
    requires a < b <= |s| && Boundary(s, a) && Boundary(s, b)
    ensures a < TokenEnd(s, a) <= b
  {
    StopsDoNotOverlap(s, 0, a, b);
  }

  lemma NextBoundary(s: string, i: nat)
    requires i < |s| && Boundary(s, i) && TokenEnd(s, i) > i
    ensures Boundary(s, TokenEnd(s, i))
  {
    StopsGoOn(s, 0, i);
  }

  // A boundary lies at the end of every token before it, so a prefix that does not start a
  // token cannot be followed by one.
  lemma StuckHasNoEnd(s: string, i: nat)
    requires i < |s| && Boundary(s, i) && TokenEnd(s, i) == i
    ensures !Boundary(s, |s|)
  {
    if Boundary(s, |s|) {
      NoSkip(s, i, |s|);
    }
  }

  // A run of literals from a boundary is all boundaries.
  lemma {:induction false} LiteralRun(s: string, a: nat, b: nat)
    requires a <= b <= |s| && Boundary(s, a) && forall k :: a <= k < b ==> IsLiteral(s[k])
    ensures forall k: nat :: a <= k <= b ==> Boundary(s, k)
    decreases b - a
  {
    if a < b {
      LiteralRun(s, a, b - 1);
      NextBoundary(s, b - 1);
    }
  }

  // ------------------------------------------------------------------- top labels

  lemma {:induction false} FirstHyphen(s: string, i: nat) returns (h: nat)
    requires i < |s| && s[i] == '-' && AlnumsOrHyphens(s)
    ensures h <= i && s[h] == '-' && Alnums(s[..h])
  {
    h := i;
    if exists j :: 0 <= j < i && s[j] == '-' {
      var j :| 0 <= j < i && s[j] == '-';
      h := FirstHyphen(s, j);
    }
  }

  lemma HyphenatedMeaning(s: string, i: nat)
    requires i < |s| && s[i] == '-'
    ensures (exists h :: Hyphenated(s, h)) <==> AlnumsOrHyphens(s) && s[0] != '-' && s[|s| - 1] != '-'
  {
    if AlnumsOrHyphens(s) && s[0] != '-' && s[|s| - 1] != '-' {
      var h := FirstHyphen(s, i);
      assert Hyphenated(s, h);
    }
    if exists h :: Hyphenated(s, h) {
      var h :| Hyphenated(s, h);
      HyphenatedChars(s, h);
    }
  }

  lemma HyphenatedChars(s: string, h: int)
    requires Hyphenated(s, h)
    ensures AlnumsOrHyphens(s) && s[0] != '-' && s[|s| - 1] != '-' && exists i :: 0 <= i < |s| && s[i] == '-'
  {
  }

  lemma TopLabelChars(s: string)
    requires TopLabel(s)
    ensures s != "" && AlnumsOrHyphens(s)
  {
  }

  // validSPFTopLabel
  method ValidTopLabel(s: string) returns (ok: bool)
    ensures ok <==> TopLabel(s)
  {
    if s == "" || |s| > 63 {
      return false;
    }
    var letter, hyphen := false, false;
    ghost var at := 0;
    for i := 0 to |s|
      invariant forall k :: 0 <= k < i ==> IsAlnum(s[k]) || s[k] == '-'
      invariant letter <==> exists k :: 0 <= k < i && IsAlpha(s[k])
      invariant hyphen ==> 0 <= at < i && s[at] == '-'
      invariant !hyphen ==> forall k :: 0 <= k < i ==> s[k] != '-'
    {
      if IsAlpha(s[i]) {
        letter := true;
      } else if IsDigit(s[i]) {
      } else if s[i] == '-' {
        hyphen, at := true, i;
      } else {
        NotTopLabel(s, i);
        return false;
      }
    }
    if !hyphen {
      ok := letter;
      NoHyphen(s);
      return;
    }
    HyphenatedMeaning(s, at);
    ok := s[0] != '-' && s[|s| - 1] != '-';
  }

  lemma NotTopLabel(s: string, i: nat)
    requires i < |s| && !IsAlnum(s[i]) && s[i] != '-'
    ensures !TopLabel(s)
  {
  }

  lemma NoHyphen(s: string)
    requires forall k :: 0 <= k < |s| ==> s[k] != '-'
    ensures forall h :: !Hyphenated(s, h)
  {
  }

  // ----------------------------------------------------------------- domain specs

  // A literal dot before end.
  ghost predicate DotAt(s: string, k: int, end: int) { 0 <= k < end <= |s| && s[k] == '.' && Boundary(s, k) }

  // k is the last literal dot before end, or -1.
  ghost predicate LastDot(s: string, k: int, end: int) {
    && -1 <= k && (k >= 0 ==> DotAt(s, k, end))
    && forall j :: DotAt(s, j, end) ==> j <= k
  }

  // The last token of s, which ends at its end, is a macro.
  ghost predicate EndsInMacro(s: string, end: nat)
    requires end <= |s|
  {
    exists j: nat :: j < end && Boundary(s, j) && TokenEnd(s, j) == end && s[j] == '%'
  }

  lemma LastTokenIsUnique(s: string, i: nat, j: nat, end: nat)
    requires i < end <= |s| && j < end && Boundary(s, i) && Boundary(s, j) && TokenEnd(s, i) == end && TokenEnd(s, j) == end
    ensures i == j
  {
    if i < j {
      NoSkip(s, i, j);
    } else if j < i {
      NoSkip(s, j, i);
    }
  }

  ghost predicate LabelAt(s: string, k: nat) { k <= |s| && Boundary(s, k) && DottedLabel(s[k..]) }

  ghost predicate Labelled(s: string) { exists k: nat :: LabelAt(s, k) }

  lemma MacroEndIsSpec(s: string)
    requires EndsInMacro(s, |s|)
    ensures DomainSpec(s)
  {
    var j: nat :| j < |s| && Boundary(s, j) && TokenEnd(s, j) == |s| && s[j] == '%';
    BoundaryIsMacroString(s, j);
    assert s[j..|s|] == s[j..];
    TokenEndExact(s, j, |s|);
    assert s[j..][0] == '%';
    assert DomainSpecAt(s, j);
  }

  lemma LabelEndIsSpec(s: string, k: nat)
    requires LabelAt(s, k)
    ensures DomainSpec(s)
  {
    BoundaryIsMacroString(s, k);
    assert DomainSpecAt(s, k);
  }

  lemma SpecEnds(s: string)
    requires DomainSpec(s)
    ensures EndsInMacro(s, |s|) || Labelled(s)
  {
    var k: nat :| DomainSpecAt(s, k);
    BoundaryIsMacroString(s, k);
    if MacroExpand(s[k..]) {
      assert s[k..|s|] == s[k..] && s[k..][0] == s[k];
      TokenEndExact(s, k, |s|);
    } else {
      assert LabelAt(s, k);
    }
  }

  // A domain spec is a text of tokens.
  lemma SpecIsTokens(s: string)
    requires DomainSpec(s)
    ensures s != "" && Boundary(s, |s|)
  {
    var k: nat :| DomainSpecAt(s, k);
    BoundaryIsMacroString(s, k);
    if MacroExpand(s[k..]) {
      assert s[k..|s|] == s[k..];
      TokenEndExact(s, k, |s|);
      NextBoundary(s, k);
    } else {
      LabelIsTokens(s, k);
    }
  }

  lemma LabelIsTokens(s: string, k: nat)
    requires k <= |s| && Boundary(s, k) && DottedLabel(s[k..])
    ensures s != "" && Boundary(s, |s|)
  {
    LabelIsLiteral(s[k..]);
    forall i | k <= i < |s| ensures IsLiteral(s[i]) { assert s[i] == s[k..][i - k]; }
    LiteralRun(s, k, |s|);
  }

  lemma LabelIsLiteral(t: string)
    requires DottedLabel(t)
    ensures |t| >= 2 && forall i :: 0 <= i < |t| ==> IsLiteral(t[i])
  {
    if TopLabel(t[1..]) {
      TopLabelChars(t[1..]);
      assert forall i :: 1 <= i < |t| ==> t[i] == t[1..][i - 1];
    } else {
      TopLabelChars(t[1..|t| - 1]);
      assert forall i :: 1 <= i < |t| - 1 ==> t[i] == t[1..|t| - 1][i - 1];
    }
  }

  // A dotted label stands at k exactly when a top label fills the text from there to the end,
  // a final dot aside.
  lemma LabelEnds(s: string, k: nat, end: nat)
    requires s != "" && end == (if s[|s| - 1] == '.' then |s| - 1 else |s|) && k <= |s|
    ensures DottedLabel(s[k..]) <==> k < end && s[k] == '.' && TopLabel(s[k + 1..end])
  {
    var t := s[k..];
    if k < |s| {
      assert t[0] == s[k] && t[|t| - 1] == s[|s| - 1] && t[1..] == s[k + 1..];
      if k + 1 < |s| {
        assert t[1..|t| - 1] == s[k + 1..|s| - 1];
        NoFinalDot(t[1..]);
      } else {
        EmptyLabel();
        assert t[1..] == "";
      }
      assert s[k + 1..|s|] == s[k + 1..];
    }
  }

  lemma NoFinalDot(t: string)
    requires t != ""
    ensures TopLabel(t) ==> t[|t| - 1] != '.'
  {
  }

  lemma EmptyLabel()
    ensures !TopLabel("")
  {
  }

  // The label can only follow the last dot before the end.
  lemma LabelAfterLastDot(s: string, k: nat, end: nat, dot: int)
    requires s != "" && end == (if s[|s| - 1] == '.' then |s| - 1 else |s|) && LastDot(s, dot, end) && LabelAt(s, k)
    ensures dot == k && TopLabel(s[k + 1..end])
  {
    LabelEnds(s, k, end);
    assert DotAt(s, k, end);
    TopLabelChars(s[k + 1..end]);
    assert forall i :: k < i < end ==> s[i] == s[k + 1..end][i - (k + 1)];
  }

  lemma LabelDecided(s: string, end: nat, dot: int)
    requires s != "" && end == (if s[|s| - 1] == '.' then |s| - 1 else |s|) && LastDot(s, dot, end)
    ensures Labelled(s) <==> dot >= 0 && TopLabel(s[dot + 1..end])
  {
    if k: nat :| LabelAt(s, k) {
      LabelAfterLastDot(s, k, end, dot);
    }
    if dot >= 0 && TopLabel(s[dot + 1..end]) {
      DotIsLabel(s, end, dot);
    }
  }

  lemma DotIsLabel(s: string, end: nat, dot: int)
    requires s != "" && end == (if s[|s| - 1] == '.' then |s| - 1 else |s|) && 0 <= dot && DotAt(s, dot, end) && TopLabel(s[dot + 1..end])
    ensures Labelled(s)
  {
    LabelEnds(s, dot, end);
    assert LabelAt(s, dot);
  }

  // Moving past one token.
  lemma DotsStep(s: string, i: nat, j: nat, last: int)
    requires i < j <= |s| && Boundary(s, i) && TokenEnd(s, i) == j && LastDot(s, last, i)
    ensures LastDot(s, if s[i] == '.' then i else last, j)
  {
    forall k | DotAt(s, k, j) && k != i ensures DotAt(s, k, i) {
      if i < k {
        NoSkip(s, i, k);
      }
    }
  }

  lemma MacroStep(s: string, i: nat, j: nat)
    requires i < j <= |s| && Boundary(s, i) && TokenEnd(s, i) == j
    ensures EndsInMacro(s, j) <==> s[i] == '%'
  {
    if EndsInMacro(s, j) {
      var k: nat :| k < j && Boundary(s, k) && TokenEnd(s, k) == j && s[k] == '%';
      LastTokenIsUnique(s, i, k, j);
    }
  }

  lemma StuckIsNoSpec(s: string, i: nat)
    requires i < |s| && Boundary(s, i) && TokenEnd(s, i) == i
    ensures !DomainSpec(s)
  {
    StuckHasNoEnd(s, i);
    if DomainSpec(s) {
      SpecIsTokens(s);
    }
  }

  lemma SpecIsLabelled(s: string)
    requires !EndsInMacro(s, |s|)
    ensures DomainSpec(s) <==> Labelled(s)
  {
    if DomainSpec(s) {
      SpecEnds(s);
    }
    if k: nat :| LabelAt(s, k) {
      LabelEndIsSpec(s, k);
    }
  }

  lemma FinalDotIsLast(s: string, last: int)
    requires s != "" && Boundary(s, |s|) && !EndsInMacro(s, |s|) && s[|s| - 1] == '.' && LastDot(s, last, |s|)
    ensures last == |s| - 1
  {
    var j := LastToken(s, |s|);
    assert s[j] != '%';
    assert DotAt(s, |s| - 1, |s|);
  }

  // What the scan knows at a boundary: the last two literal dots and whether a macro ended there.
  ghost predicate Scanned(s: string, index: nat, last: int, previous: int, macro: bool) {
    && index <= |s| && Boundary(s, index) && (macro <==> EndsInMacro(s, index))
    && LastDot(s, last, index) && (if last >= 0 then LastDot(s, previous, last) else previous == -1)
  }

  // The verdict at the end of the scan.
  lemma SpecDecided(s: string, last: int, previous: int)
    requires s != "" && Scanned(s, |s|, last, previous, false)
    ensures var end := if s[|s| - 1] == '.' then |s| - 1 else |s|;
            var dot := if s[|s| - 1] == '.' then previous else last;
            && dot + 1 <= end && (DomainSpec(s) <==> dot >= 0 && TopLabel(s[dot + 1..end]))
  {
    SpecIsLabelled(s);
    if s[|s| - 1] == '.' {
      FinalDotIsLast(s, last);
      LabelDecided(s, |s| - 1, previous);
    } else {
      LabelDecided(s, |s|, last);
    }
  }

  lemma ScannedStart(s: string)
    ensures Scanned(s, 0, -1, -1, false)
  {
  }

  lemma ScannedStep(s: string, i: nat, last: int, previous: int, macro: bool)
    requires i < |s| && Scanned(s, i, last, previous, macro) && TokenEnd(s, i) > i
    ensures Scanned(s, TokenEnd(s, i), if s[i] == '.' then i else last, if s[i] == '.' then last else previous, s[i] == '%')
  {
    NextBoundary(s, i);
    DotsStep(s, i, TokenEnd(s, i), last);
    MacroStep(s, i, TokenEnd(s, i));
  }

  // One token of the scan.
  method ScanToken(value: string, index: nat, lastDot: int, previousDot: int, ghost macro: bool)
    returns (next: nat, last: int, previous: int, isMacro: bool, ok: bool)
    requires index < |value| && Scanned(value, index, lastDot, previousDot, macro)
    ensures !ok ==> !DomainSpec(value)
    ensures ok ==> index < next && Scanned(value, next, last, previous, isMacro)
  {
    next, last, previous, isMacro, ok := index, lastDot, previousDot, false, true;
    if value[index] == '%' {
      isMacro := true;
      next, ok := ValidMacro(value, index);
    } else if !IsLiteral(value[index]) {
      ok := false;
    } else {
      if value[index] == '.' {
        previous, last := lastDot, index;
      }
      next := index + 1;
    }
    if ok {
      ScannedStep(value, index, lastDot, previousDot, macro);
    } else {
      StuckIsNoSpec(value, index);
    }
  }

  // validSPFDomainSpec accepts exactly the domain specs of the grammar.
  method ValidDomainSpec(value: string) returns (ok: bool)
    ensures ok <==> DomainSpec(value)
  {
    if value == "" {
      EmptyIsNoSpec();
      return false;
    }
    var previousDot, lastDot, lastTokenMacro, index := -1, -1, false, 0;
    ScannedStart(value);
    while index < |value|
      invariant Scanned(value, index, lastDot, previousDot, lastTokenMacro)
      decreases |value| - index
    {
      index, lastDot, previousDot, lastTokenMacro, ok := ScanToken(value, index, lastDot, previousDot, lastTokenMacro);
      if !ok {
        return false;
      }
    }
    if lastTokenMacro {
      MacroEndIsSpec(value);
      return true;
    }
    SpecDecided(value, lastDot, previousDot);
    var end := |value|;
    if value[end - 1] == '.' {
      end := end - 1;
      lastDot := previousDot;
    }
    if lastDot < 0 {
      return false;
    }
    ok := ValidTopLabel(value[lastDot + 1..end]);
  }

  lemma EmptyIsNoSpec()
    ensures !DomainSpec("")
  {
  }
}
