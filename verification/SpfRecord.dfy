// spfIncludes: whether a record passes through another domain (sections 5.1, 5.2 and 12 of
// RFC 7208), on the lower-cased, space-separated fields of the record.
module SpfRecord {
  import opened Options
  import opened Spf
  import opened SpfArguments

  datatype Term =
    | Blank
    | Modifier(name: string, argument: string)
    | Mechanism(qualifier: char, name: string, suffix: Option<string>)
    | Malformed

  // ----------------------------------------------------------------- reading terms

  function IndexOf(s: string, chars: string): (i: int)
    ensures -1 <= i < |s| && (i >= 0 ==> s[i] in chars && forall k :: 0 <= k < i ==> s[k] !in chars)
    ensures i == -1 ==> forall k :: 0 <= k < |s| ==> s[k] !in chars
  {
    if s == "" then -1
    else if s[0] in chars then 0
    else
      var i := IndexOf(s[1..], chars);
      if i < 0 then -1 else i + 1
  }

  predicate IsQualifier(c: char) { c in "+-~?" }

  // splitSPFModifier
  predicate IsModifier(term: string) {
    var separator, assignment := IndexOf(term, ":/"), IndexOf(term, "=");
    assignment >= 0 && !(separator >= 0 && assignment > separator)
  }

  function Bare(term: string): (string, Option<string>) {
    var separator := IndexOf(term, ":/");
    if separator < 0 then (term, None) else (term[..separator], Some(term[separator..]))
  }

  function Read(term: string): Term {
    if term == "" then Blank
    else if IsModifier(term) then Modifier(term[..IndexOf(term, "=")], term[IndexOf(term, "=") + 1..])
    else
      var qualified := IsQualifier(term[0]);
      var rest := if qualified then term[1..] else term;
      if qualified && (rest == "" || IsQualifier(rest[0])) then Malformed
      else Mechanism(if qualified then term[0] else '+', Bare(rest).0, Bare(rest).1)
  }

  predicate IsAll(t: Term) { t.Mechanism? && t.name == "all" && t.suffix.None? }

  function WithoutDot(s: string): string { if s != "" && s[|s| - 1] == '.' then s[..|s| - 1] else s }

  // ---------------------------------------------------------------- specification

  predicate NamesOne(s: string) {
    s != "" && IsAlpha(s[0]) && forall i :: 1 <= i < |s| ==> IsAlnum(s[i]) || s[i] in "-_."
  }

  // A ":" and a domain spec.
  ghost predicate Domain(suffix: Option<string>) { suffix.Some? && suffix.value != "" && suffix.value[0] == ':' && DomainSpec(suffix.value[1..]) }

  ghost predicate ValidMechanism(t: Term, addresses: Addresses)
    requires t.Mechanism?
  {
    if t.name == "all" then t.suffix.None?
    else if t.name in {"include", "exists"} then Domain(t.suffix)
    else if t.name in {"a", "mx"} then DomainArgument(t.suffix)
    else if t.name == "ptr" then PtrArgument(t.suffix)
    else t.name in {"ip4", "ip6"} && AddressArgument(t.suffix, t.name == "ip4", addresses)
  }

  ghost predicate ValidModifier(t: Term)
    requires t.Modifier?
  {
    NamesOne(t.name) && if t.name in {"redirect", "exp"} then DomainSpec(t.argument) else MacroString(t.argument)
  }

  predicate Once(name: string) { name in {"redirect", "exp"} }

  function Modifiers(terms: seq<Term>): (ms: seq<Term>)
    ensures forall i :: 0 <= i < |ms| ==> ms[i].Modifier?
  {
    if terms == [] then []
    else
      var front, last := Modifiers(terms[..|terms| - 1]), terms[|terms| - 1];
      if last.Modifier? then front + [last] else front
  }

  // Every modifier is well formed, and redirect and exp appear at most once.
  ghost predicate ModifiersValid(ms: seq<Term>)
    requires forall i :: 0 <= i < |ms| ==> ms[i].Modifier?
  {
    && (forall i :: 0 <= i < |ms| ==> ValidModifier(ms[i]))
    && (forall i, j :: 0 <= i < j < |ms| && Once(ms[i].name) ==> ms[i].name != ms[j].name)
  }

  // The terms evaluated: those before the first "all".
  function Evaluated(terms: seq<Term>): (n: nat)
    ensures n <= |terms| && (forall i :: 0 <= i < n ==> !IsAll(terms[i])) && (n < |terms| ==> IsAll(terms[n]))
  {
    if terms == [] || IsAll(terms[0]) then 0 else 1 + Evaluated(terms[1..])
  }

  ghost predicate TermValid(t: Term, addresses: Addresses) { !t.Malformed? && (t.Mechanism? ==> ValidMechanism(t, addresses)) }

  predicate Passes(t: Term, expected: string) {
    t.Mechanism? && t.name == "include" && t.qualifier == '+' && t.suffix.Some? && t.suffix.value != "" && WithoutDot(t.suffix.value[1..]) == expected
  }

  // The record passes through the domain: its modifiers are valid, every mechanism before the
  // first "all" is valid, and one of them is a passing include of the domain.
  ghost predicate Includes(terms: seq<Term>, expected: string, addresses: Addresses) {
    && ModifiersValid(Modifiers(terms))
    && ValidUpTo(terms, Evaluated(terms), addresses) && PassesUpTo(terms, Evaluated(terms), expected)
  }

  ghost predicate ValidUpTo(terms: seq<Term>, n: nat, addresses: Addresses)
    requires n <= |terms|
  {
    forall i :: 0 <= i < n ==> TermValid(terms[i], addresses)
  }

  predicate PassesUpTo(terms: seq<Term>, n: nat, expected: string)
    requires n <= |terms|
  {
    exists i :: 0 <= i < n && Passes(terms[i], expected)
  }

  // ------------------------------------------------------------------- theorems

  lemma {:induction false} EvaluatedIsFirst(a: seq<Term>, b: seq<Term>)
    requires Evaluated(a) < |a|
    ensures Evaluated(a + b) == Evaluated(a)
  {
    if !IsAll(a[0]) {
      assert (a + b)[1..] == a[1..] + b;
      EvaluatedIsFirst(a[1..], b);
    }
  }

  lemma {:induction false} ModifiersAppend(a: seq<Term>, b: seq<Term>)
    ensures Modifiers(a + b) == Modifiers(a) + Modifiers(b)
  {
    if b == [] {
      assert a + b == a;
    } else {
      assert (a + b)[..|a + b| - 1] == a + b[..|b| - 1];
      ModifiersAppend(a, b[..|b| - 1]);
    }
  }

  // Terms after the first "all" matter only through their modifiers.
  lemma AfterAllNothingMatters(before: seq<Term>, a: seq<Term>, b: seq<Term>, expected: string, addresses: Addresses)
    requires Evaluated(before) < |before| && Modifiers(a) == Modifiers(b)
    ensures Includes(before + a, expected, addresses) <==> Includes(before + b, expected, addresses)
  {
    EvaluatedIsFirst(before, a);
    EvaluatedIsFirst(before, b);
    ModifiersAppend(before, a);
    ModifiersAppend(before, b);
    assert forall i :: 0 <= i < |before| ==> (before + a)[i] == before[i] && (before + b)[i] == before[i];
  }

  // In particular a passing include there does not count, and an unknown mechanism there does
  // not invalidate the record.
  lemma {:induction false} MechanismsHaveNoModifiers(ts: seq<Term>)
    requires forall i :: 0 <= i < |ts| ==> !ts[i].Modifier?
    ensures Modifiers(ts) == []
  {
    if ts != [] {
      MechanismsHaveNoModifiers(ts[..|ts| - 1]);
    }
  }

  lemma MechanismsAfterAllNeverCount(before: seq<Term>, after: seq<Term>, expected: string, addresses: Addresses)
    requires Evaluated(before) < |before| && forall i :: 0 <= i < |after| ==> !after[i].Modifier?
    ensures Includes(before + after, expected, addresses) <==> Includes(before, expected, addresses)
  {
    MechanismsHaveNoModifiers(after);
    AfterAllNothingMatters(before, after, [], expected, addresses);
    assert before + [] == before;
  }

  // ------------------------------------------------------------------ the recogniser

  // validSPFMacroString
  method ValidMacroString(value: string) returns (ok: bool)
    ensures ok <==> MacroString(value)
  {
    var index := 0;
    while index < |value|
      invariant index <= |value| && Boundary(value, index)
      decreases |value| - index
    {
      ghost var i := index;
      ok := true;
      if value[index] == '%' {
        index, ok := ValidMacro(value, index);
      } else if IsLiteral(value[index]) {
        index := index + 1;
      } else {
        ok := false;
      }
      if !ok {
        StuckHasNoEnd(value, i);
        WholeIsMacroString(value);
        return;
      }
      NextBoundary(value, i);
    }
    WholeIsMacroString(value);
    ok := true;
  }

  lemma WholeIsMacroString(s: string)
    ensures Boundary(s, |s|) <==> MacroString(s)
  {
    assert s[..|s|] == s;
    BoundaryIsMacroString(s, |s|);
  }

  // The verdict on one modifier.
  method CheckModifier(t: Term) returns (ok: bool)
    requires t.Modifier?
    ensures ok <==> ValidModifier(t)
  {
    if !NamesOne(t.name) {
      return false;
    }
    if t.name == "redirect" || t.name == "exp" {
      ok := ValidDomainSpec(t.argument);
    } else {
      ok := ValidMacroString(t.argument);
    }
  }

  lemma ModifiersStep(ms: seq<Term>, t: Term)
    requires (forall i :: 0 <= i < |ms| ==> ms[i].Modifier?) && t.Modifier? && ModifiersValid(ms)
    ensures ModifiersValid(ms + [t]) <==> ValidModifier(t) && !(Once(t.name) && exists i :: 0 <= i < |ms| && ms[i].name == t.name)
  {
    var n := ms + [t];
    assert n[|ms|] == t;
    if i :| 0 <= i < |ms| && ms[i].name == t.name && Once(t.name) {
      assert n[i].name == n[|ms|].name;
    }
  }

  lemma {:induction false} ModifiersPrefix(terms: seq<Term>, i: nat)
    requires i <= |terms| && !ModifiersValid(Modifiers(terms[..i]))
    ensures !ModifiersValid(Modifiers(terms))
  {
    assert terms == terms[..i] + terms[i..];
    ModifiersAppend(terms[..i], terms[i..]);
    ValidPrefix(Modifiers(terms[..i]), Modifiers(terms[i..]));
  }

  lemma ValidPrefix(a: seq<Term>, b: seq<Term>)
    requires (forall i :: 0 <= i < |a| ==> a[i].Modifier?) && (forall i :: 0 <= i < |b| ==> b[i].Modifier?)
    ensures ModifiersValid(a + b) ==> ModifiersValid(a)
  {
    assert forall i :: 0 <= i < |a| ==> (a + b)[i] == a[i];
  }

  predicate Named(ms: seq<Term>, name: string)
    requires forall i :: 0 <= i < |ms| ==> ms[i].Modifier?
  {
    exists i :: 0 <= i < |ms| && ms[i].name == name
  }

  lemma NamedStep(ms: seq<Term>, t: Term, name: string)
    requires (forall i :: 0 <= i < |ms| ==> ms[i].Modifier?) && t.Modifier?
    ensures Named(ms + [t], name) <==> Named(ms, name) || t.name == name
  {
    var n := ms + [t];
    assert n[|ms|] == t;
    if i :| 0 <= i < |ms| && ms[i].name == name {
      assert n[i].name == name;
    }
  }

  // validSPFModifiers
  method ValidModifiers(terms: seq<Term>) returns (ok: bool)
    ensures ok <==> ModifiersValid(Modifiers(terms))
  {
    var seenRedirect, seenExplanation := false, false;
    for i := 0 to |terms|
      invariant ModifiersValid(Modifiers(terms[..i]))
      invariant seenRedirect <==> Named(Modifiers(terms[..i]), "redirect")
      invariant seenExplanation <==> Named(Modifiers(terms[..i]), "exp")
    {
      var t := terms[i];
      assert terms[..i + 1][..i] == terms[..i];
      if !t.Modifier? {
        continue;
      }
      ghost var ms := Modifiers(terms[..i]);
      assert Modifiers(terms[..i + 1]) == ms + [t];
      ModifiersStep(ms, t);
      NamedStep(ms, t, "redirect");
      NamedStep(ms, t, "exp");
      var valid := CheckModifier(t);
      if !valid || (t.name == "redirect" && seenRedirect) || (t.name == "exp" && seenExplanation) {
        ModifiersPrefix(terms, i + 1);
        return false;
      }
      if t.name == "redirect" {
        seenRedirect := true;
      }
      if t.name == "exp" {
        seenExplanation := true;
      }
    }
    assert terms[..|terms|] == terms;
    ok := true;
  }

  method CheckMechanism(t: Term, addresses: Addresses) returns (ok: bool)
    requires t.Mechanism?
    ensures ok <==> ValidMechanism(t, addresses)
  {
    if t.name == "all" {
      return t.suffix.None?;
    }
    if t.name == "include" || t.name == "exists" {
      if t.suffix.None? || t.suffix.value == "" || t.suffix.value[0] != ':' {
        return false;
      }
      ok := ValidDomainSpec(t.suffix.value[1..]);
      return;
    }
    if t.name == "a" || t.name == "mx" {
      ok := ValidDomainArgument(t.suffix);
      return;
    }
    if t.name == "ptr" {
      ok := ValidPtrArgument(t.suffix);
      return;
    }
    if t.name == "ip4" || t.name == "ip6" {
      ok := ValidAddressArgument(t.suffix, t.name == "ip4", addresses);
      return;
    }
    ok := false;
  }

  // What the scan knows after i terms.
  ghost predicate Evaluates(terms: seq<Term>, i: nat, expected: string, addresses: Addresses, matched: bool) {
    && i <= |terms| && ValidUpTo(terms, i, addresses) && (matched <==> PassesUpTo(terms, i, expected))
    && forall j :: 0 <= j < i ==> !IsAll(terms[j])
  }

  lemma EvaluatesStep(terms: seq<Term>, i: nat, expected: string, addresses: Addresses, matched: bool)
    requires i < |terms| && Evaluates(terms, i, expected, addresses, matched) && !IsAll(terms[i]) && TermValid(terms[i], addresses)
    ensures Evaluates(terms, i + 1, expected, addresses, matched || Passes(terms[i], expected))
  {
  }

  lemma EvaluatesEnd(terms: seq<Term>, i: nat, expected: string, addresses: Addresses, matched: bool)
    requires Evaluates(terms, i, expected, addresses, matched) && (i < |terms| ==> IsAll(terms[i]))
    ensures matched <==> ValidUpTo(terms, Evaluated(terms), addresses) && PassesUpTo(terms, Evaluated(terms), expected)
  {
  }

  lemma EvaluatedPast(terms: seq<Term>, i: nat)
    requires i < |terms| && forall j :: 0 <= j <= i ==> !IsAll(terms[j])
    ensures i < Evaluated(terms)
  {
  }

  lemma InvalidTerm(terms: seq<Term>, i: nat, n: nat, addresses: Addresses)
    requires i < n <= |terms| && !TermValid(terms[i], addresses)
    ensures !ValidUpTo(terms, n, addresses)
  {
  }

  method CheckTerm(t: Term, addresses: Addresses) returns (ok: bool)
    ensures ok <==> TermValid(t, addresses)
  {
    if t.Malformed? {
      return false;
    }
    ok := true;
    if t.Mechanism? {
      ok := CheckMechanism(t, addresses);
    }
  }

  method Evaluate(terms: seq<Term>, expected: string, addresses: Addresses) returns (matched: bool)
    ensures matched <==> ValidUpTo(terms, Evaluated(terms), addresses) && PassesUpTo(terms, Evaluated(terms), expected)
  {
    matched := false;
    for i := 0 to |terms|
      invariant Evaluates(terms, i, expected, addresses, matched)
    {
      var t := terms[i];
      if t.Mechanism? && t.name == "all" && t.suffix.None? {
        EvaluatesEnd(terms, i, expected, addresses, matched);
        return;
      }
      var ok := CheckTerm(t, addresses);
      if !ok {
        EvaluatedPast(terms, i);
        InvalidTerm(terms, i, Evaluated(terms), addresses);
        return false;
      }
      EvaluatesStep(terms, i, expected, addresses, matched);
      if Passes(t, expected) {
        matched := true;
      }
    }
    EvaluatesEnd(terms, |terms|, expected, addresses, matched);
  }

  // spfIncludes
  method SpfIncludes(fields: seq<string>, domain: string, addresses: Addresses) returns (matched: bool)
    ensures matched <==> fields != [] && fields[0] == "v=spf1" && Includes(ReadAll(fields[1..]), WithoutDot(domain), addresses)
  {
    if fields == [] || fields[0] != "v=spf1" {
      return false;
    }
    var terms := ReadAll(fields[1..]);
    matched := ValidModifiers(terms);
    if matched {
      matched := Evaluate(terms, WithoutDot(domain), addresses);
    }
  }

  function ReadAll(fields: seq<string>): (terms: seq<Term>)
    ensures |terms| == |fields| && forall i :: 0 <= i < |fields| ==> terms[i] == Read(fields[i])
  {
    if fields == [] then [] else ReadAll(fields[..|fields| - 1]) + [Read(fields[|fields| - 1])]
  }
}
