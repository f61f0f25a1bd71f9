// writeCanonicalJSON: an unambiguous printer with sorted keys and normalised numbers.
module CanonicalJson {
  import opened Options
  import opened Lex
  import opened Numbers

  // A decoded value; numbers keep their source text.
  datatype Json = Null | Bool(value: bool) | Str(text: string) | Num(number: Number) | Arr(items: seq<Json>) | Obj(fields: map<string, Json>)

  predicate Decoded(v: Json) {
    match v
    case Num(n) => WellFormed(n)
    case Arr(items) => forall i :: 0 <= i < |items| ==> Decoded(items[i])
    case Obj(fields) => forall k :: k in fields ==> Decoded(fields[k])
    case _ => true
  }

  // Equal up to the numeric value of numbers.
  predicate Same(u: Json, v: Json) {
    match (u, v)
    case (Num(m), Num(n)) => Value(m) == Value(n)
    case (Arr(s), Arr(t)) => |s| == |t| && forall i :: 0 <= i < |s| ==> Same(s[i], t[i])
    case (Obj(a), Obj(b)) => a.Keys == b.Keys && forall k :: k in a ==> Same(a[k], b[k])
    case _ => u == v
  }

  // ------------------------------------------------------------- string literals

  function Hex(n: nat): char
    requires n < 16
  {
    if n < 10 then ('0' as int + n) as char else ('a' as int + (n - 10)) as char
  }

  function Escape16(c: char): string
    requires (c as int) < 0x10000
  {
    var n := c as int;
    ['\\', 'u', Hex(n / 4096), Hex(n / 256 % 16), Hex(n / 16 % 16), Hex(n % 16)]
  }

  predicate Literal(c: char) {
    ' ' <= c && c !in {'"', '\\', '<', '>', '&', '\U{2028}', '\U{2029}'}
  }

  function Letter(c: char): Option<char> {
    if c == '"' then Some('"') else if c == '\\' then Some('\\')
    else if c == '\n' then Some('n') else if c == '\r' then Some('r') else if c == '\t' then Some('t')
    else if c == '\U{8}' then Some('b') else if c == '\U{c}' then Some('f') else None
  }

  // One character as json.Marshal writes it.
  function Escape(c: char): string {
    if Literal(c) then [c]
    else if Letter(c).Some? then ['\\', Letter(c).value]
    else Escape16(c)
  }

  function Quoted(s: string): string { if s == "" then "\"" else Escape(s[0]) + Quoted(s[1..]) }

  function Quote(s: string): string { "\"" + Quoted(s) }

  lemma HexDetermines(m: nat, n: nat)
    requires m < 16 && n < 16 && Hex(m) == Hex(n)
    ensures m == n
  {
  }

  lemma Escape16Determines(c: char, d: char)
    requires (c as int) < 0x10000 && (d as int) < 0x10000 && Escape16(c) == Escape16(d)
    ensures c == d
  {
    var m, n := c as int, d as int;
    assert Escape16(c)[2] == Escape16(d)[2] && Escape16(c)[3] == Escape16(d)[3];
    assert Escape16(c)[4] == Escape16(d)[4] && Escape16(c)[5] == Escape16(d)[5];
    HexDetermines(m / 4096, n / 4096);
    HexDetermines(m / 256 % 16, n / 256 % 16);
    HexDetermines(m / 16 % 16, n / 16 % 16);
    HexDetermines(m % 16, n % 16);
    Nibbles(m);
    Nibbles(n);
  }

  lemma Nibbles(n: nat)
    requires n < 0x10000
    ensures n == 4096 * (n / 4096) + 256 * (n / 256 % 16) + 16 * (n / 16 % 16) + n % 16
  {
    assert n / 16 / 16 == n / 256 && n / 256 / 16 == n / 4096;
  }

  // The escapes are a prefix code.
  lemma EscapeDetermines(c: char, x: string, d: char, y: string)
    requires Escape(c) + x == Escape(d) + y
    ensures c == d && x == y
  {
    var s, t := Escape(c) + x, Escape(d) + y;
    assert s[0] == Escape(c)[0] && t[0] == Escape(d)[0];
    if !Literal(c) && !Literal(d) {
      assert s[1] == Escape(c)[1] && t[1] == Escape(d)[1];
      SameLetter(c, d);
      assert |Escape(c)| == |Escape(d)|;
      assert s[..|Escape(c)|] == Escape(c) && t[..|Escape(c)|] == Escape(d);
      if Letter(c).None? {
        Escape16Determines(c, d);
      }
    }
    assert s[|Escape(c)|..] == x && t[|Escape(d)|..] == y;
  }

  lemma SameLetter(c: char, d: char)
    requires !Literal(c) && !Literal(d) && Escape(c)[1] == Escape(d)[1]
    ensures Letter(c) == Letter(d)
  {
  }

  lemma {:induction false} QuotedDetermines(s: string, x: string, t: string, y: string)
    requires Quoted(s) + x == Quoted(t) + y
    ensures s == t && x == y
    decreases |s|
  {
    QuotedLead(s, x);
    QuotedLead(t, y);
    if s != "" {
      QuotedStep(s, x);
      QuotedStep(t, y);
      EscapeDetermines(s[0], Quoted(s[1..]) + x, t[0], Quoted(t[1..]) + y);
      QuotedDetermines(s[1..], x, t[1..], y);
      assert s == [s[0]] + s[1..] && t == [t[0]] + t[1..];
    }
  }

  lemma QuotedStep(s: string, x: string)
    requires s != ""
    ensures Quoted(s) + x == Escape(s[0]) + (Quoted(s[1..]) + x)
  {
  }

  // Only the end of a literal reads as a quote.
  lemma QuotedLead(s: string, x: string)
    ensures Quoted(s) != "" && ((Quoted(s) + x)[0] == '"' <==> s == "")
    ensures s == "" ==> (Quoted(s) + x)[1..] == x
  {
  }

  // String literals are injective and self-delimiting.
  lemma QuoteDetermines(s: string, x: string, t: string, y: string)
    requires Quote(s) + x == Quote(t) + y
    ensures s == t && x == y
  {
    QuoteStep(s, x);
    QuoteStep(t, y);
    PrefixDetermines("\"", Quoted(s) + x, Quoted(t) + y);
    QuotedDetermines(s, x, t, y);
  }

  lemma QuoteStep(s: string, x: string)
    ensures Quote(s) + x == "\"" + (Quoted(s) + x)
  {
  }

  lemma PrefixDetermines(p: string, x: string, y: string)
    requires p + x == p + y
    ensures x == y
  {
    assert (p + x)[|p|..] == x && (p + y)[|p|..] == y;
  }

  // ------------------------------------------------------------------ the printer

  function WriteNumber(n: Number): string
    requires WellFormed(n)
  {
    NormalizeText(n);
    Normalize(Text(n)).value
  }

  // writeCanonicalJSON
  function Write(v: Json): string
    requires Decoded(v)
    decreases v, 1, 0
  {
    match v
    case Null => "null"
    case Bool(b) => if b then "true" else "false"
    case Str(s) => Quote(s)
    case Num(n) => WriteNumber(n)
    case Arr(items) => "[" + Elements(v, items, true)
    case Obj(fields) => "{" + Members(v, Sorted(fields.Keys), true)
  }

  ghost predicate Within(v: Json, items: seq<Json>) { forall i :: 0 <= i < |items| ==> items[i] < v && Decoded(items[i]) }

  predicate Holds(v: Json, keys: seq<string>) {
    v.Obj? && Decoded(v) && forall i :: 0 <= i < |keys| ==> keys[i] in v.fields
  }

  // The remaining elements of an array up to its bracket.
  function Elements(v: Json, items: seq<Json>, first: bool): string
    requires Within(v, items)
    decreases v, 0, |items|
  {
    if items == [] then "]" else (if first then "" else ",") + (Write(items[0]) + Elements(v, items[1..], false))
  }

  // The remaining members of an object, by key, up to its brace.
  function Members(v: Json, keys: seq<string>, first: bool): string
    requires Holds(v, keys)
    decreases v, 0, |keys|
  {
    if keys == [] then "}"
    else (if first then "" else ",") + (Quote(keys[0]) + (":" + (Write(v.fields[keys[0]]) + Members(v, keys[1..], false))))
  }

  // ------------------------------------------------------------ where a value starts

  predicate NumberChar(c: char) { IsDigit(c) || c in {'-', '+', '.', 'e', 'E'} }

  lemma NumberChars(n: Number)
    requires WellFormed(n)
    ensures forall c :: c in Text(n) ==> NumberChar(c)
    ensures Text(n) != "" && (IsDigit(Text(n)[0]) || Text(n)[0] == '-')
  {
  }

  lemma WrittenChars(n: Number)
    requires WellFormed(n)
    ensures forall c :: c in WriteNumber(n) ==> NumberChar(c)
    ensures WriteNumber(n) != "" && (IsDigit(WriteNumber(n)[0]) || WriteNumber(n)[0] == '-')
  {
    var m := NormalizeIsExact(n);
    NumberChars(m);
  }

  datatype Kind = KNull | KTrue | KFalse | KString | KNumber | KArray | KObject

  function KindOf(v: Json): Kind {
    match v
    case Null => KNull
    case Bool(b) => if b then KTrue else KFalse
    case Str(_) => KString
    case Num(_) => KNumber
    case Arr(_) => KArray
    case Obj(_) => KObject
  }

  predicate Starts(c: char, k: Kind) {
    match k
    case KNull => c == 'n'
    case KTrue => c == 't'
    case KFalse => c == 'f'
    case KString => c == '"'
    case KNumber => IsDigit(c) || c == '-'
    case KArray => c == '['
    case KObject => c == '{'
  }

  lemma WriteStarts(v: Json)
    requires Decoded(v)
    ensures Write(v) != "" && Starts(Write(v)[0], KindOf(v))
  {
    if v.Num? {
      WrittenChars(v.number);
    }
  }

  lemma KindShows(u: Json, x: string, v: Json, y: string)
    requires Decoded(u) && Decoded(v) && Write(u) + x == Write(v) + y
    ensures KindOf(u) == KindOf(v)
  {
    WriteStarts(u);
    WriteStarts(v);
    assert (Write(u) + x)[0] == Write(u)[0] && (Write(v) + y)[0] == Write(v)[0];
  }

  // ----------------------------------------------------------- printing determines

  predicate Delimiter(c: char) { c in {',', ']', '}'} }
  predicate Ends(x: string) { x == "" || Delimiter(x[0]) }

  predicate Undelimited(a: string) { forall c :: c in a ==> !Delimiter(c) }

  lemma EndsShow(a: string, x: string)
    requires Undelimited(a) && Ends(x)
    ensures a == "" <==> Ends(a + x)
    ensures a == "" ==> a + x == x
    ensures a != "" ==> a + x == [a[0]] + (a[1..] + x) && Undelimited(a[1..])
  {
  }

  // A text without delimiters ends where the first delimiter stands.
  lemma {:induction false} UntilDelimiter(a: string, x: string, b: string, y: string)
    requires a + x == b + y && Ends(x) && Ends(y) && Undelimited(a) && Undelimited(b)
    ensures a == b && x == y
  {
    EndsShow(a, x);
    EndsShow(b, y);
    if a != "" {
      SameTail(a[0], a[1..] + x, b[0], b[1..] + y);
      UntilDelimiter(a[1..], x, b[1..], y);
      assert a == [a[0]] + a[1..] && b == [b[0]] + b[1..];
    }
  }

  lemma SameTail(c: char, x: string, d: char, y: string)
    requires [c] + x == [d] + y
    ensures c == d && x == y
  {
    assert ([c] + x)[0] == c && ([d] + y)[0] == d && ([c] + x)[1..] == x && ([d] + y)[1..] == y;
  }

  lemma NumberDetermines(m: Number, x: string, n: Number, y: string)
    requires WellFormed(m) && WellFormed(n) && WriteNumber(m) + x == WriteNumber(n) + y && Ends(x) && Ends(y)
    ensures Value(m) == Value(n) && x == y
  {
    WrittenChars(m);
    WrittenChars(n);
    UntilDelimiter(WriteNumber(m), x, WriteNumber(n), y);
    NormalizeText(m);
    NormalizeText(n);
    NormalizeDecides(m, n);
  }

  // A bracketed text starts with its bracket.
  lemma Unwrap(c: char, a: string, x: string, b: string, y: string)
    requires ([c] + a) + x == ([c] + b) + y
    ensures a + x == b + y
  {
    assert ([c] + a) + x == [c] + (a + x) && ([c] + b) + y == [c] + (b + y);
    PrefixDetermines([c], a + x, b + y);
  }

  // Two values printed before a delimiter are the same value.
  lemma {:induction false} WriteDetermines(u: Json, x: string, v: Json, y: string)
    requires Decoded(u) && Decoded(v) && Ends(x) && Ends(y) && Write(u) + x == Write(v) + y
    ensures Same(u, v) && x == y
    decreases u, 1, 0
  {
    KindShows(u, x, v, y);
    match u
    case Null => PrefixDetermines("null", x, y);
    case Bool(b) => PrefixDetermines(if b then "true" else "false", x, y);
    case Str(s) => QuoteDetermines(s, x, v.text, y);
    case Num(n) => NumberDetermines(n, x, v.number, y);
    case Arr(items) =>
      Unwrap('[', Elements(u, items, true), x, Elements(v, v.items, true), y);
      ElementsDetermine(u, items, x, v, v.items, y, true);
    case Obj(fields) =>
      Unwrap('{', Members(u, Sorted(fields.Keys), true), x, Members(v, Sorted(v.fields.Keys), true), y);
      MembersDetermine(u, Sorted(fields.Keys), x, v, Sorted(v.fields.Keys), y, true);
      SameObjects(u, v);
  }

  lemma SameObjects(u: Json, v: Json)
    requires u.Obj? && v.Obj? && Sorted(u.fields.Keys) == Sorted(v.fields.Keys)
    requires forall i :: 0 <= i < |Sorted(u.fields.Keys)| ==> Same(u.fields[Sorted(u.fields.Keys)[i]], v.fields[Sorted(u.fields.Keys)[i]])
    ensures Same(u, v)
  {
  }

  // How the remaining elements start: a bracket only when there are none.
  lemma ElementsShow(u: Json, s: seq<Json>, first: bool, x: string)
    requires Within(u, s)
    ensures Elements(u, s, first) != "" && ((Elements(u, s, first) + x)[0] == ']' <==> s == [])
    ensures !first ==> Ends(Elements(u, s, first) + x)
    ensures s == [] ==> Elements(u, s, first) + x == "]" + x
    ensures s != [] ==> Elements(u, s, first) + x
                        == (if first then "" else ",") + (Write(s[0]) + (Elements(u, s[1..], false) + x))
  {
    if s != [] {
      WriteStarts(s[0]);
      Associate(if first then "" else ",", Write(s[0]), Elements(u, s[1..], false), x);
    }
  }

  lemma Associate(p: string, a: string, b: string, x: string)
    ensures (p + (a + b)) + x == p + (a + (b + x))
  {
  }

  lemma {:induction false} ElementsDetermine(u: Json, s: seq<Json>, x: string, v: Json, t: seq<Json>, y: string, first: bool)
    requires Within(u, s) && Within(v, t) && Elements(u, s, first) + x == Elements(v, t, first) + y
    ensures |s| == |t| && (forall i :: 0 <= i < |s| ==> Same(s[i], t[i])) && x == y
    decreases u, 0, |s|
  {
    ElementsShow(u, s, first, x);
    ElementsShow(v, t, first, y);
    if s == [] {
      PrefixDetermines("]", x, y);
    } else {
      var a, b := Elements(u, s[1..], false) + x, Elements(v, t[1..], false) + y;
      PrefixDetermines(if first then "" else ",", Write(s[0]) + a, Write(t[0]) + b);
      ElementsShow(u, s[1..], false, x);
      ElementsShow(v, t[1..], false, y);
      WriteDetermines(s[0], a, t[0], b);
      ElementsDetermine(u, s[1..], x, v, t[1..], y, false);
      forall i | 0 <= i < |s| ensures Same(s[i], t[i]) {
        if i > 0 {
          assert s[i] == s[1..][i - 1] && t[i] == t[1..][i - 1];
        }
      }
    }
  }

  lemma MembersShow(u: Json, s: seq<string>, first: bool, x: string)
    requires Holds(u, s)
    ensures Members(u, s, first) != "" && ((Members(u, s, first) + x)[0] == '}' <==> s == [])
    ensures !first ==> Ends(Members(u, s, first) + x)
    ensures s == [] ==> Members(u, s, first) + x == "}" + x
    ensures s != [] ==> Members(u, s, first) + x
                        == (if first then "" else ",") + (Quote(s[0]) + (":" + (Write(u.fields[s[0]]) + (Members(u, s[1..], false) + x))))
  {
  }

  lemma {:induction false} MembersDetermine(u: Json, s: seq<string>, x: string, v: Json, t: seq<string>, y: string, first: bool)
    requires Holds(u, s) && Holds(v, t) && Members(u, s, first) + x == Members(v, t, first) + y
    ensures s == t && (forall i :: 0 <= i < |s| ==> Same(u.fields[s[i]], v.fields[s[i]])) && x == y
    decreases u, 0, |s|
  {
    MembersShow(u, s, first, x);
    MembersShow(v, t, first, y);
    if s == [] {
      PrefixDetermines("}", x, y);
    } else {
      MembersShow(u, s[1..], false, x);
      MembersShow(v, t[1..], false, y);
      var a, b := Members(u, s[1..], false) + x, Members(v, t[1..], false) + y;
      var wu, wv := Write(u.fields[s[0]]) + a, Write(v.fields[t[0]]) + b;
      PrefixDetermines(if first then "" else ",", Quote(s[0]) + (":" + wu), Quote(t[0]) + (":" + wv));
      QuoteDetermines(s[0], ":" + wu, t[0], ":" + wv);
      PrefixDetermines(":", wu, wv);
      WriteDetermines(u.fields[s[0]], a, v.fields[t[0]], b);
      MembersDetermine(u, s[1..], x, v, t[1..], y, false);
      JoinMembers(u, s, v, t);
    }
  }

  lemma JoinMembers(u: Json, s: seq<string>, v: Json, t: seq<string>)
    requires Holds(u, s) && Holds(v, t) && s != [] && t != [] && s[0] == t[0] && s[1..] == t[1..]
    requires Same(u.fields[s[0]], v.fields[s[0]]) && forall i :: 0 <= i < |s[1..]| ==> Same(u.fields[s[1..][i]], v.fields[s[1..][i]])
    ensures s == t && forall i :: 0 <= i < |s| ==> Same(u.fields[s[i]], v.fields[s[i]])
  {
  }

  // ------------------------------------------------------------- and is determined

  lemma {:induction false} SameWrites(u: Json, v: Json)
    requires Decoded(u) && Decoded(v) && Same(u, v)
    ensures Write(u) == Write(v)
    decreases u, 1, 0
  {
    match u
    case Num(n) =>
      NormalizeText(n);
      NormalizeText(v.number);
      NormalizeDecides(n, v.number);
    case Arr(items) => SameElements(u, items, v, v.items, true);
    case Obj(fields) =>
      AscendingIsUnique(Sorted(fields.Keys), Sorted(v.fields.Keys));
      SameMembers(u, v, Sorted(fields.Keys), true);
    case _ =>
  }

  lemma {:induction false} SameElements(u: Json, s: seq<Json>, v: Json, t: seq<Json>, first: bool)
    requires Within(u, s) && Within(v, t) && |s| == |t| && forall i :: 0 <= i < |s| ==> Same(s[i], t[i])
    ensures Elements(u, s, first) == Elements(v, t, first)
    decreases u, 0, |s|
  {
    if s != [] {
      SameWrites(s[0], t[0]);
      SameElements(u, s[1..], v, t[1..], false);
    }
  }

  lemma {:induction false} SameMembers(u: Json, v: Json, keys: seq<string>, first: bool)
    requires Holds(u, keys) && Holds(v, keys) && Same(u, v)
    ensures Members(u, keys, first) == Members(v, keys, first)
    decreases u, 0, |keys|
  {
    if keys != [] {
      SameWrites(u.fields[keys[0]], v.fields[keys[0]]);
      SameMembers(u, v, keys[1..], false);
    }
  }

  // Two decoded values print to the same text exactly when they are equal up to the numeric
  // value of numbers.
  lemma CanonicalTextDecides(u: Json, v: Json)
    requires Decoded(u) && Decoded(v)
    ensures Write(u) == Write(v) <==> Same(u, v)
  {
    if Write(u) == Write(v) {
      WriteDetermines(u, "", v, "");
    }
    if Same(u, v) {
      SameWrites(u, v);
    }
  }
}
