// How the fields of a record read as terms, and what a passing record says in its own text.
module SpfMeaning {
  import opened Options
  import opened Spf
  import opened SpfArguments
  import opened SpfRecord

  // Free of what ends a name.
  predicate Plain(s: string) { forall i :: 0 <= i < |s| ==> s[i] !in ":/=" }

  predicate Suffix(suffix: Option<string>) { suffix.Some? ==> suffix.value != "" && suffix.value[0] in ":/" }

  function Text(name: string, suffix: Option<string>): string { name + if suffix.Some? then suffix.value else "" }

  lemma IndexIs(s: string, chars: string, i: nat)
    requires i < |s| && s[i] in chars && forall k :: 0 <= k < i ==> s[k] !in chars
    ensures IndexOf(s, chars) == i
  {
  }

  // A field reads as a modifier exactly when an "=" comes before any ":" or "/".
  lemma ModifierReads(name: string, argument: string)
    requires Plain(name)
    ensures Read(name + "=" + argument) == Modifier(name, argument)
  {
    var s := name + "=" + argument;
    IndexIs(s, "=", |name|);
    assert s[..|name|] == name && s[|name| + 1..] == argument;
  }

  lemma ReadsModifier(field: string)
    requires Read(field).Modifier?
    ensures var t := Read(field); Plain(t.name) && field == t.name + "=" + t.argument
  {
    var i := IndexOf(field, "=");
    assert field == field[..i] + [field[i]] + field[i + 1..];
  }

  lemma BareReads(name: string, suffix: Option<string>)
    requires Plain(name) && Suffix(suffix)
    ensures Bare(Text(name, suffix)) == (name, suffix) && !IsModifier(Text(name, suffix))
  {
    var s := Text(name, suffix);
    if suffix.Some? {
      IndexIs(s, ":/", |name|);
      assert s[..|name|] == name && s[|name|..] == suffix.value;
      assert forall k :: 0 <= k <= |name| ==> s[k] != '=';
    } else {
      assert s == name;
    }
  }

  // A mechanism reads as its qualifier, plus when there is none, its name and its suffix.
  lemma MechanismReads(name: string, suffix: Option<string>)
    requires Plain(name) && Suffix(suffix) && Text(name, suffix) != "" && !IsQualifier(Text(name, suffix)[0])
    ensures Read(Text(name, suffix)) == Mechanism('+', name, suffix)
    ensures forall q :: IsQualifier(q) ==> Read([q] + Text(name, suffix)) == Mechanism(q, name, suffix)
  {
    BareReads(name, suffix);
    forall q | IsQualifier(q) ensures Read([q] + Text(name, suffix)) == Mechanism(q, name, suffix) {
      QualifiedReads(q, name, suffix);
    }
  }

  lemma QualifiedReads(q: char, name: string, suffix: Option<string>)
    requires Plain(name) && Suffix(suffix) && Text(name, suffix) != "" && !IsQualifier(Text(name, suffix)[0]) && IsQualifier(q)
    ensures Read([q] + Text(name, suffix)) == Mechanism(q, name, suffix)
  {
    var s := [q] + Text(name, suffix);
    assert s[1..] == Text(name, suffix) && s == Text([q] + name, suffix);
    assert Plain([q] + name);
    BareReads([q] + name, suffix);
    BareReads(name, suffix);
  }

  lemma ReadsBare(s: string)
    requires !IsModifier(s)
    ensures Plain(Bare(s).0) && Suffix(Bare(s).1) && s == Text(Bare(s).0, Bare(s).1)
  {
    var i := IndexOf(s, ":/");
    if i >= 0 {
      assert s == s[..i] + s[i..];
    }
  }

  // And nothing else does.
  lemma ReadsMechanism(field: string)
    requires Read(field).Mechanism?
    ensures var t := Read(field);
            && Plain(t.name) && Suffix(t.suffix) && IsQualifier(t.qualifier)
            && (field == [t.qualifier] + Text(t.name, t.suffix) || (t.qualifier == '+' && field == Text(t.name, t.suffix)))
  {
    if IsQualifier(field[0]) {
      TailIsNoModifier(field);
      ReadsBare(field[1..]);
      assert field == [field[0]] + field[1..];
    } else {
      ReadsBare(field);
    }
  }

  lemma TailIsNoModifier(field: string)
    requires field != "" && IsQualifier(field[0]) && !IsModifier(field)
    ensures !IsModifier(field[1..])
  {
  }

  // Of the other fields, those are malformed in which a qualifier stands alone or before another.
  lemma ReadsMalformed(field: string)
    requires field != "" && !IsModifier(field)
    ensures Read(field).Malformed? <==> IsQualifier(field[0]) && (|field| == 1 || IsQualifier(field[1]))
  {
    var rest := field[1..];
    assert rest == "" <==> |field| == 1;
    assert |field| > 1 ==> rest[0] == field[1];
  }

  // ---------------------------------------------------------------- verdicts in words

  // The fields that end the evaluation.
  lemma AllInWords(field: string)
    ensures IsAll(Read(field)) <==> field == "all" || exists q :: IsQualifier(q) && field == [q] + "all"
  {
    MechanismReads("all", None);
    assert Text("all", None) == "all";
    if IsAll(Read(field)) {
      ReadsMechanism(field);
    }
  }

  // Equal up to one trailing dot of the name given.
  predicate Matches(x: string, expected: string) { x == expected + "." || (x == expected && (x == "" || x[|x| - 1] != '.')) }

  lemma MatchesDot(x: string, expected: string)
    ensures WithoutDot(x) == expected <==> Matches(x, expected)
  {
    if x != "" && x[|x| - 1] == '.' {
      assert x == x[..|x| - 1] + ".";
    }
    if x == expected + "." {
      assert x[..|x| - 1] == expected;
    }
  }

  // A valid field passes through the domain exactly when it is an include of it, with the
  // qualifier plus or none.
  lemma IncludeInWords(field: string, expected: string, addresses: Addresses)
    ensures Passes(Read(field), expected) && TermValid(Read(field), addresses) <==>
              exists x :: DomainSpec(x) && Matches(x, expected) && Included(field, x)
  {
    if Passes(Read(field), expected) && TermValid(Read(field), addresses) {
      ReadsInclude(field, expected, addresses);
    }
    if x :| DomainSpec(x) && Matches(x, expected) && Included(field, x) {
      IncludeReads(field, x);
      MatchesDot(x, expected);
      assert (":" + x)[1..] == x;
    }
  }

  predicate Included(field: string, x: string) { field == "include:" + x || field == "+include:" + x }

  lemma IncludeReads(field: string, x: string)
    requires Included(field, x)
    ensures Read(field) == Mechanism('+', "include", Some(":" + x))
  {
    assert "include:" + x == Text("include", Some(":" + x)) && "+include:" + x == ['+'] + Text("include", Some(":" + x));
    MechanismReads("include", Some(":" + x));
  }

  lemma ReadsInclude(field: string, expected: string, addresses: Addresses)
    requires Passes(Read(field), expected) && TermValid(Read(field), addresses)
    ensures exists x :: DomainSpec(x) && Matches(x, expected) && Included(field, x)
  {
    ReadsMechanism(field);
    var t := Read(field);
    ColonText(t.suffix.value);
    MatchesDot(t.suffix.value[1..], expected);
    IncludeText(field, t.suffix.value[1..]);
  }

  lemma ColonText(s: string)
    requires s != "" && s[0] == ':'
    ensures s == ":" + s[1..]
  {
  }

  lemma IncludeText(field: string, x: string)
    requires field == ['+'] + Text("include", Some(":" + x)) || field == Text("include", Some(":" + x))
    ensures Included(field, x)
  {
    assert "include:" + x == "include" + (":" + x) && "+include:" + x == "+" + ("include" + (":" + x));
  }

  // A record that includes a domain and says nothing else but how to end passes through it.
  lemma PlainRecordIncludes(x: string, expected: string, end: string, addresses: Addresses)
    requires DomainSpec(x) && Matches(x, expected) && (end == "all" || exists q :: IsQualifier(q) && end == [q] + "all")
    ensures Includes(ReadAll(["include:" + x, end]), expected, addresses)
  {
    IncludeReads("include:" + x, x);
    IncludeInWords("include:" + x, expected, addresses);
    AllInWords(end);
    ReadTwo("include:" + x, end);
    PairIncludes(Read("include:" + x), Read(end), expected, addresses);
  }

  lemma ReadTwo(a: string, b: string)
    ensures ReadAll([a, b]) == [Read(a), Read(b)]
  {
  }

  lemma PairIncludes(a: Term, b: Term, expected: string, addresses: Addresses)
    requires Passes(a, expected) && TermValid(a, addresses) && IsAll(b)
    ensures Includes([a, b], expected, addresses)
  {
    var terms := [a, b];
    assert terms[1..] == [b];
    MechanismsHaveNoModifiers(terms);
    assert Evaluated(terms) == 1 && Passes(terms[0], expected);
  }
}
