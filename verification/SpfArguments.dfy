// The arguments of the SPF mechanisms: domain specs with CIDR lengths (sections 5.3 to 5.6 of
// RFC 7208) and addresses.
module SpfArguments {
  import opened Options
  import opened Spf
  import Numbers

  // Whether a text is an address, of version 4 or 6: netip.ParseAddr.
  type Addresses = (string, bool) -> bool

  // ------------------------------------------------------------------- CIDR lengths

  // Digits that amount to at most the maximum.
  predicate Length(s: string, maximum: nat) { s != "" && Numbers.AllDigits(s) && Numbers.Amount(s) <= maximum }

  // The grammar's length: zero, or a nonzero digit and at most one more (two for version 6).
  predicate GrammarLength(s: string, four: bool) {
    && s != "" && Numbers.AllDigits(s) && (s == "0" || s[0] != '0') && |s| <= (if four then 2 else 3)
    && Numbers.Amount(s) <= if four then 32 else 128
  }

  // The recogniser accepts the grammar's lengths and, beyond them, exactly those with leading zeros.
  lemma LengthAgrees(s: string, four: bool)
    ensures GrammarLength(s, four) <==> Length(s, if four then 32 else 128) && (s == "0" || s[0] != '0')
  {
    if s != "" && Numbers.AllDigits(s) && s[0] != '0' {
      AtLeast(s);
    }
  }

  // A number without leading zero is at least the power of ten of its length, up to four digits.
  lemma {:induction false} AtLeast(s: string)
    requires s != "" && Numbers.AllDigits(s) && s[0] != '0'
    ensures Numbers.Amount(s) >= 1 && (|s| >= 2 ==> Numbers.Amount(s) >= 10) && (|s| >= 3 ==> Numbers.Amount(s) >= 100)
    ensures |s| >= 4 ==> Numbers.Amount(s) >= 1000
  {
    var front := s[..|s| - 1];
    assert Numbers.IsDigit(s[|s| - 1]) && Numbers.IsDigit(s[0]);
    if front != "" {
      AtLeast(front);
    }
  }

  // A dual CIDR length after its first slash: a version 4 length, a version 6 length, or both.
  predicate DualAt(s: string, k: nat) { k + 2 <= |s| && Length(s[..k], 32) && s[k] == '/' && s[k + 1] == '/' && Length(s[k + 2..], 128) }

  predicate Dual(s: string) {
    || Length(s, 32)
    || (s != "" && s[0] == '/' && Length(s[1..], 128))
    || exists k: nat :: k < |s| && DualAt(s, k)
  }

  // validSPFCIDRLength
  method ValidLength(s: string, maximum: nat) returns (ok: bool)
    ensures ok <==> Length(s, maximum)
  {
    if s == "" {
      return false;
    }
    var amount := 0;
    for i := 0 to |s|
      invariant Numbers.AllDigits(s[..i]) && amount == Numbers.Amount(s[..i])
    {
      assert s[..i + 1][..i] == s[..i];
      if !Numbers.IsDigit(s[i]) {
        return false;
      }
      amount := 10 * amount + Numbers.DigitValue(s[i]);
    }
    assert s[..|s|] == s;
    ok := amount <= maximum;
  }

  // validSPFDualCIDR: the text before the first double slash, and after it.
  method ValidDual(s: string) returns (ok: bool)
    ensures ok <==> Dual(s)
  {
    if s != "" && s[0] == '/' {
      SlashIsNoDigit(s, 0);
      ok := ValidLength(s[1..], 128);
      return;
    }
    var k := 0;
    while k + 1 < |s| && !(s[k] == '/' && s[k + 1] == '/')
      invariant 0 <= k && (s == "" ==> k == 0) && (s != "" ==> k < |s|)
      invariant forall j :: 0 <= j < k ==> !(s[j] == '/' && s[j + 1] == '/')
    {
      k := k + 1;
    }
    if k + 1 >= |s| {
      ok := ValidLength(s, 32);
      return;
    }
    SlashIsNoDigit(s, k);
    forall j: nat | j < |s| && DualAt(s, j) ensures j == k {
      FirstDouble(s, j, k);
    }
    var four := ValidLength(s[..k], 32);
    var six := ValidLength(s[k + 2..], 128);
    ok := four && six;
    assert ok ==> DualAt(s, k);
  }

  lemma SlashIsNoDigit(s: string, k: nat)
    requires k < |s| && s[k] == '/'
    ensures !Numbers.AllDigits(s) && forall j :: k < j <= |s| ==> !Numbers.AllDigits(s[..j])
  {
    assert !Numbers.IsDigit(s[k]);
    forall j | k < j <= |s| ensures !Numbers.AllDigits(s[..j]) { assert s[..j][k] == '/'; }
  }

  lemma FirstDouble(s: string, j: nat, k: nat)
    requires DualAt(s, j) && k + 1 < |s| && s[k] == '/' && s[k + 1] == '/' && forall i :: 0 <= i < k ==> !(s[i] == '/' && s[i + 1] == '/')
    ensures j == k
  {
    if k < j {
      SlashIsNoDigit(s, k);
    }
  }

  // ------------------------------------------------- the cut at the first literal slash

  // Where the scan goes from i: over a macro, or one character on.
  ghost function Hop(s: string, i: nat): (j: nat)
    requires i < |s|
    ensures i <= j <= |s|
  {
    if s[i] == '%' then i + MacroLength(s[i..]) else i + 1
  }

  // Where the scan stops: at a literal slash, a malformed macro or the end.
  ghost function StopAt(s: string, i: nat): (k: nat)
    requires i <= |s|
    ensures i <= k <= |s|
    ensures k < |s| ==> s[k] == '/' || (s[k] == '%' && MacroLength(s[k..]) == 0)
    decreases |s| - i
  {
    if i < |s| && s[i] != '/' && Hop(s, i) > i then StopAt(s, Hop(s, i)) else i
  }

  // No slash stands outside the macros.
  ghost predicate SlashFree(d: string) { forall k: nat :: Boundary(d, k) && k < |d| ==> d[k] != '/' }

  // A token of a prefix is a hop of the whole.
  lemma TokenIsHop(s: string, n: nat, i: nat)
    requires i < n <= |s| && TokenEnd(s[..n], i) > i
    ensures Hop(s, i) == TokenEnd(s[..n], i)
  {
    var d := s[..n];
    if s[i] == '%' {
      var m := MacroLength(d[i..]);
      MeasuredIsExpand(d[i..], m);
      assert d[i..][..m] == s[i..][..m];
      ExpandIsMeasured(s[i..], m);
    }
  }

  // The scan walks through a slash-free prefix of tokens to its end.
  lemma {:induction false} WalkPrefix(s: string, n: nat, i: nat)
    requires i <= n <= |s| && Boundary(s[..n], i) && n in Stops(s[..n], i) && SlashFree(s[..n])
    ensures StopAt(s, i) == StopAt(s, n)
    decreases n - i
  {
    if i < n {
      var d := s[..n];
      TokenIsHop(s, n, i);
      NextBoundary(d, i);
      assert d[i] == s[i] != '/';
      WalkPrefix(s, n, TokenEnd(d, i));
    }
  }

  // Before the stop no token is a slash.
  lemma {:induction false} NoSlashBefore(s: string, k: nat, i: nat, j: nat)
    requires i <= k <= |s| && StopAt(s, i) == k && k in Stops(s[..k], i) && j in Stops(s[..k], i) && j < k
    ensures s[j] != '/'
    decreases k - i
  {
    if j != i {
      var d := s[..k];
      TokenIsHop(s, k, i);
      NoSlashBefore(s, k, TokenEnd(d, i), j);
    }
  }

  // ---------------------------------------------------------------- a and mx arguments

  // What may follow the domain spec.
  predicate Tail(c: string) { c == "" || (c[0] == '/' && Dual(c[1..])) }

  // A derivation of the text after the colon: a domain spec and a tail.
  ghost predicate DerivedAt(v: string, n: nat) { n <= |v| && DomainSpec(v[..n]) && Tail(v[n..]) }

  ghost predicate Derived(v: string) { exists n: nat :: DerivedAt(v, n) }

  // A derivation whose domain spec has no literal slash.
  ghost predicate Accepted(v: string) { exists n: nat :: DerivedAt(v, n) && SlashFree(v[..n]) }

  // The cut decides: the domain spec of a slash-free derivation ends where the scan stops.
  lemma CutDecides(v: string, k: nat)
    requires StopAt(v, 0) == k
    ensures Accepted(v) <==> (k == |v| || v[k] == '/') && DerivedAt(v, k)
  {
    if n: nat :| DerivedAt(v, n) && SlashFree(v[..n]) {
      SpecIsTokens(v[..n]);
      WalkPrefix(v, n, 0);
      if n < |v| {
        assert v[n..][0] == v[n] == '/';
      }
    }
    if DerivedAt(v, k) {
      SpecIsTokens(v[..k]);
      forall j: nat | Boundary(v[..k], j) && j < k ensures v[..k][j] != '/' { NoSlashBefore(v, k, 0, j); }
      assert SlashFree(v[..k]);
    }
  }

  // splitSPFDomainCIDR
  method SplitDomain(v: string) returns (k: nat, ok: bool)
    ensures k == StopAt(v, 0) && (ok <==> k == |v| || v[k] == '/')
  {
    k := 0;
    while k < |v|
      invariant k <= |v| && StopAt(v, k) == StopAt(v, 0)
      decreases |v| - k
    {
      if v[k] == '%' {
        var next, valid := ValidMacro(v, k);
        if !valid {
          return k, false;
        }
        k := next;
        continue;
      }
      if v[k] == '/' {
        return k, true;
      }
      k := k + 1;
    }
    ok := true;
  }

  // An argument of a or mx: absent, a length, or a colon with a domain spec and an optional length.
  ghost predicate DomainArgument(suffix: Option<string>) {
    || suffix.None?
    || (suffix.value != "" && suffix.value[0] == ':' && Accepted(suffix.value[1..]))
    || (suffix.value != "" && suffix.value[0] == '/' && Dual(suffix.value[1..]))
  }

  // validSPFDomainCIDR accepts exactly the arguments with a derivation whose domain spec has
  // no literal slash.
  method ValidDomainArgument(suffix: Option<string>) returns (ok: bool)
    ensures ok <==> DomainArgument(suffix)
  {
    if suffix.None? {
      return true;
    }
    if suffix.value == "" {
      return false;
    }
    var v := suffix.value[1..];
    if suffix.value[0] == '/' {
      ok := ValidDual(v);
      return;
    }
    if suffix.value[0] != ':' {
      return false;
    }
    var k, cut := SplitDomain(v);
    CutDecides(v, k);
    if !cut {
      return false;
    }
    ok := ValidDomainSpec(v[..k]);
    if ok && k < |v| {
      assert v[k..][1..] == v[k + 1..];
      ok := ValidDual(v[k + 1..]);
    }
  }

  // The grammar derives more: a slash is a macro literal, so a domain spec may hold one.
  const SLASHED := "x/y.example"

  lemma SlashedIsDerived()
    ensures Derived(SLASHED)
  {
    var s := SLASHED;
    assert |s| == 11 && s[..11] == s && s[11..] == "";
    LiteralRun(s, 0, 3);
    var t := s[3..];
    assert t[0] == '.' && t[1..] == "example" && IsAlpha(t[1..][0]);
    assert Alnums(t[1..]);
    assert TopLabel(t[1..]);
    assert LabelAt(s, 3);
    LabelEndIsSpec(s, 3);
    assert DerivedAt(s, 11);
  }

  lemma PlainIsNoSpec(d: string)
    requires forall i :: 0 <= i < |d| ==> d[i] != '%' && d[i] != '.'
    ensures !DomainSpec(d)
  {
    if DomainSpec(d) {
      SpecEnds(d);
      if k: nat :| LabelAt(d, k) {
        LabelHasDot(d, k);
      }
    }
  }

  lemma LabelHasDot(d: string, k: nat)
    requires LabelAt(d, k)
    ensures k < |d| && d[k] == '.'
  {
    assert d[k..][0] == d[k];
  }

  // An argument the grammar derives and the recogniser rejects.
  lemma SlashedIsRejected()
    ensures Derived(SLASHED) && !Accepted(SLASHED) && !DomainArgument(Some(":" + SLASHED))
  {
    SlashedIsDerived();
    var s := SLASHED;
    assert s[0] == 'x' && s[1] == '/';
    assert StopAt(s, 1) == 1;
    assert StopAt(s, 0) == 1;
    CutDecides(s, 1);
    assert s[..1] == "x";
    PlainIsNoSpec(s[..1]);
    var whole := ":" + s;
    assert whole[0] == ':' && whole[1..] == s;
  }

  // ------------------------------------------------------------- the other mechanisms

  // validSPFPtr
  ghost predicate PtrArgument(suffix: Option<string>) {
    suffix.None? || (suffix.value != "" && suffix.value[0] == ':' && DomainSpec(suffix.value[1..]))
  }

  method ValidPtrArgument(suffix: Option<string>) returns (ok: bool)
    ensures ok <==> PtrArgument(suffix)
  {
    if suffix.None? {
      return true;
    }
    if suffix.value == "" || suffix.value[0] != ':' {
      return false;
    }
    ok := ValidDomainSpec(suffix.value[1..]);
  }

  // An address alone, or an address, a slash and a length.
  predicate AddressAt(v: string, k: nat, four: bool, addresses: Addresses) {
    && 0 < k <= |v| && '/' !in v[..k] && addresses(v[..k], four)
    && (k == |v| || (v[k] == '/' && Length(v[k + 1..], if four then 32 else 128)))
  }

  ghost predicate AddressArgument(suffix: Option<string>, four: bool, addresses: Addresses) {
    && suffix.Some? && suffix.value != "" && suffix.value[0] == ':'
    && exists k: nat :: AddressAt(suffix.value[1..], k, four, addresses)
  }

  // validSPFIP
  method ValidAddressArgument(suffix: Option<string>, four: bool, addresses: Addresses) returns (ok: bool)
    ensures ok <==> AddressArgument(suffix, four, addresses)
  {
    if suffix.None? || suffix.value == "" || suffix.value[0] != ':' {
      return false;
    }
    var v := suffix.value[1..];
    var k := 0;
    while k < |v| && v[k] != '/'
      invariant k <= |v| && '/' !in v[..k]
    {
      assert v[..k + 1] == v[..k] + [v[k]];
      k := k + 1;
    }
    forall j: nat | AddressAt(v, j, four, addresses) ensures j == k {
      FirstSlash(v, j, k);
    }
    if k == 0 || !addresses(v[..k], four) {
      return false;
    }
    ok := true;
    if k < |v| {
      ok := ValidLength(v[k + 1..], if four then 32 else 128);
    }
    assert ok ==> AddressAt(v, k, four, addresses);
  }

  lemma FirstSlash(v: string, j: nat, k: nat)
    requires j <= |v| && k <= |v| && '/' !in v[..j] && '/' !in v[..k] && (j == |v| || v[j] == '/') && (k == |v| || v[k] == '/')
    ensures j == k
  {
    if j < k {
      NoSlashIn(v, k, j);
    } else if k < j {
      NoSlashIn(v, j, k);
    }
  }

  lemma NoSlashIn(v: string, k: nat, j: nat)
    requires j < k <= |v| && '/' !in v[..k]
    ensures v[j] != '/'
  {
    assert v[..k][j] == v[j];
  }
}
