// A reader of JSON texts (RFC 8259), written from the grammar, and that it reads every
// canonical text back: what the printer writes is JSON for the value it was given.
module JsonReader {
  import opened Options
  import opened Lex
  import opened Numbers
  import opened CanonicalJson

  // What was read and the text after it.
  type Read<+T> = Option<(T, string)>

  // ------------------------------------------------------------------- white space

  predicate Blank(s: string) { s != "" && s[0] in {' ', '\t', '\n', '\r'} }

  function Skip(s: string): (t: string)
    ensures |t| <= |s| && !Blank(t)
  {
    if Blank(s) then Skip(s[1..]) else s
  }

  predicate Leads(s: string, c: char) { s != "" && s[0] == c }

  // --------------------------------------------------------------- string literals

  function HexDigit(c: char): Option<nat> {
    if '0' <= c <= '9' then Some(c as int - '0' as int)
    else if 'a' <= c <= 'f' then Some(c as int - 'a' as int + 10)
    else if 'A' <= c <= 'F' then Some(c as int - 'A' as int + 10)
    else None
  }

  // Four hexadecimal digits.
  function Unit(s: string): (r: Read<nat>)
    ensures r.Some? ==> r.value.0 < 0x10000 && |r.value.1| < |s|
  {
    if |s| < 4 || HexDigit(s[0]).None? || HexDigit(s[1]).None? || HexDigit(s[2]).None? || HexDigit(s[3]).None? then None
    else Some((4096 * HexDigit(s[0]).value + 256 * HexDigit(s[1]).value + 16 * HexDigit(s[2]).value + HexDigit(s[3]).value, s[4..]))
  }

  // The character of a \u escape, read after the u: one unit, or a surrogate pair.
  function Escaped(s: string): (r: Read<char>)
    ensures r.Some? ==> |r.value.1| < |s|
  {
    var unit := Unit(s);
    if unit.None? then None
    else
      var (n, t) := unit.value;
      if n < 0xD800 || n >= 0xE000 then Some((n as char, t))
      else if n >= 0xDC00 || |t| < 2 || t[0] != '\\' || t[1] != 'u' then None
      else
        var low := Unit(t[2..]);
        if low.None? || low.value.0 < 0xDC00 || low.value.0 >= 0xE000 then None
        else Some(((0x10000 + 1024 * (n - 0xD800) + (low.value.0 - 0xDC00)) as char, low.value.1))
  }

  // The character of a one-letter escape.
  function Named(c: char): Option<char> {
    if c in {'"', '\\', '/'} then Some(c)
    else if c == 'b' then Some('\U{8}') else if c == 'f' then Some('\U{c}')
    else if c == 'n' then Some('\n') else if c == 'r' then Some('\r') else if c == 't' then Some('\t')
    else None
  }

  function ReadChar(s: string): (r: Read<char>)
    ensures r.Some? ==> |r.value.1| < |s|
  {
    if s == "" || s[0] < ' ' || s[0] == '"' then None
    else if s[0] != '\\' then Some((s[0], s[1..]))
    else if |s| < 2 then None
    else if Named(s[1]).Some? then Some((Named(s[1]).value, s[2..]))
    else if s[1] == 'u' then Escaped(s[2..])
    else None
  }

  // The characters of a literal after its opening quote.
  function ReadChars(s: string): (r: Read<string>)
    ensures r.Some? ==> |r.value.1| < |s|
    decreases |s|
  {
    if Leads(s, '"') then Some(("", s[1..]))
    else
      var first := ReadChar(s);
      if first.None? then None
      else
        var rest := ReadChars(first.value.1);
        if rest.None? then None else Some(([first.value.0] + rest.value.0, rest.value.1))
  }

  // ------------------------------------------------------------------------ numbers

  function TakeDigits(s: string): (r: (string, string))
    ensures |r.0| + |r.1| == |s|
  {
    if s != "" && IsDigit(s[0]) then
      var rest := TakeDigits(s[1..]);
      ([s[0]] + rest.0, rest.1)
    else ("", s)
  }

  function ReadFraction(s: string): (r: Read<Option<string>>)
    ensures r.Some? ==> |r.value.1| <= |s|
  {
    if !Leads(s, '.') then Some((None, s))
    else
      var (digits, t) := TakeDigits(s[1..]);
      if digits == "" then None else Some((Some(digits), t))
  }

  function SignOf(s: string): (sign: string)
    ensures |sign| <= |s|
  {
    if Leads(s, '+') then "+" else if Leads(s, '-') then "-" else ""
  }

  function ReadPower(upper: bool, s: string): (r: Read<Exponent>)
    ensures r.Some? ==> |r.value.1| <= |s|
  {
    var (digits, t) := TakeDigits(s[|SignOf(s)|..]);
    if digits == "" then None else Some((Exponent(upper, SignOf(s), digits), t))
  }

  function ReadExponent(s: string): (r: Read<Option<Exponent>>)
    ensures r.Some? ==> |r.value.1| <= |s|
  {
    if !Leads(s, 'e') && !Leads(s, 'E') then Some((None, s))
    else
      var power := ReadPower(s[0] == 'E', s[1..]);
      if power.None? then None else Some((Some(power.value.0), power.value.1))
  }

  function ReadUnsigned(negative: bool, s: string): (r: Read<Number>)
    ensures r.Some? ==> |r.value.1| < |s|
  {
    var (integer, t) := TakeDigits(s);
    if integer == "" || (integer[0] == '0' && |integer| > 1) then None
    else
      var fraction := ReadFraction(t);
      if fraction.None? then None
      else
        var exponent := ReadExponent(fraction.value.1);
        if exponent.None? then None else Some((Number(negative, integer, fraction.value.0, exponent.value.0), exponent.value.1))
  }

  function ReadNumber(s: string): (r: Read<Number>)
    ensures r.Some? ==> |r.value.1| < |s|
  {
    if Leads(s, '-') then ReadUnsigned(true, s[1..]) else ReadUnsigned(false, s)
  }

  // ------------------------------------------------------------------------- values

  predicate Begins(s: string, word: string) { |word| <= |s| && s[..|word|] == word }

  function ReadValue(s: string): (r: Read<Json>)
    ensures r.Some? ==> |r.value.1| < |s|
    decreases |s|, 0
  {
    var t := Skip(s);
    if Begins(t, "null") then Some((Null, t[4..]))
    else if Begins(t, "true") then Some((Bool(true), t[4..]))
    else if Begins(t, "false") then Some((Bool(false), t[5..]))
    else if Leads(t, '"') then
      var text := ReadChars(t[1..]);
      if text.None? then None else Some((Str(text.value.0), text.value.1))
    else if Leads(t, '[') then
      if Leads(Skip(t[1..]), ']') then Some((Arr([]), Skip(t[1..])[1..]))
      else
        var items := ReadItems(t[1..]);
        if items.None? then None else Some((Arr(items.value.0), items.value.1))
    else if Leads(t, '{') then
      if Leads(Skip(t[1..]), '}') then Some((Obj(map[]), Skip(t[1..])[1..]))
      else
        var fields := ReadFields(t[1..]);
        if fields.None? then None else Some((Obj(fields.value.0), fields.value.1))
    else
      var number := ReadNumber(t);
      if number.None? then None else Some((Num(number.value.0), number.value.1))
  }

  // One or more elements up to the closing bracket.
  function ReadItems(s: string): (r: Read<seq<Json>>)
    ensures r.Some? ==> |r.value.1| < |s|
    decreases |s|, 1
  {
    var first := ReadValue(s);
    if first.None? then None
    else
      var t := Skip(first.value.1);
      if Leads(t, ']') then Some(([first.value.0], t[1..]))
      else if !Leads(t, ',') then None
      else
        var rest := ReadItems(t[1..]);
        if rest.None? then None else Some(([first.value.0] + rest.value.0, rest.value.1))
  }

  // One or more members up to the closing brace; the last of equal keys counts.
  function ReadFields(s: string): (r: Read<map<string, Json>>)
    ensures r.Some? ==> |r.value.1| < |s|
    decreases |s|, 1
  {
    var first := ReadField(s);
    if first.None? then None
    else
      var t := Skip(first.value.1);
      var one := map[first.value.0.0 := first.value.0.1];
      if Leads(t, '}') then Some((one, t[1..]))
      else if !Leads(t, ',') then None
      else
        var rest := ReadFields(t[1..]);
        if rest.None? then None else Some((one + rest.value.0, rest.value.1))
  }

  function ReadField(s: string): (r: Read<(string, Json)>)
    ensures r.Some? ==> |r.value.1| < |s|
    decreases |s|, 0
  {
    var t := Skip(s);
    if !Leads(t, '"') then None
    else
      var key := ReadChars(t[1..]);
      if key.None? || !Leads(Skip(key.value.1), ':') then None
      else
        var value := ReadValue(Skip(key.value.1)[1..]);
        if value.None? then None else Some(((key.value.0, value.value.0), value.value.1))
  }

  // A whole text.
  function Parse(s: string): Option<Json> {
    var value := ReadValue(s);
    if value.None? || Skip(value.value.1) != "" then None else Some(value.value.0)
  }

  // ----------------------------------------------------------- literals are read back

  lemma HexReads(n: nat)
    requires n < 16
    ensures HexDigit(Hex(n)) == Some(n)
  {
  }

  lemma UnitReads(c: char, x: string)
    requires (c as int) < 0x10000
    ensures Unit(Escape16(c)[2..] + x) == Some((c as int, x))
  {
    var n, s := c as int, Escape16(c)[2..] + x;
    assert s[0] == Hex(n / 4096) && s[1] == Hex(n / 256 % 16) && s[2] == Hex(n / 16 % 16) && s[3] == Hex(n % 16) && s[4..] == x;
    HexReads(n / 4096);
    HexReads(n / 256 % 16);
    HexReads(n / 16 % 16);
    HexReads(n % 16);
    Nibbles(n);
  }

  lemma CharReads(c: char, x: string)
    ensures ReadChar(Escape(c) + x) == Some((c, x))
  {
    var s := Escape(c) + x;
    if Literal(c) {
      assert s[1..] == x;
    } else if Letter(c).Some? {
      assert s[2..] == x;
    } else {
      assert s[2..] == Escape16(c)[2..] + x;
      UnitReads(c, x);
    }
  }

  lemma {:induction false} CharsRead(t: string, x: string)
    ensures ReadChars(Quoted(t) + x) == Some((t, x))
    decreases |t|
  {
    QuotedLead(t, x);
    if t != "" {
      QuotedStep(t, x);
      CharReads(t[0], Quoted(t[1..]) + x);
      CharsRead(t[1..], x);
      assert t == [t[0]] + t[1..];
    }
  }

  // ------------------------------------------------------------- numbers are read back

  predicate NoDigit(x: string) { x == "" || !IsDigit(x[0]) }

  lemma {:induction false} DigitsRead(d: string, x: string)
    requires AllDigits(d) && NoDigit(x)
    ensures TakeDigits(d + x) == (d, x)
  {
    if d == "" {
      assert d + x == x;
    } else {
      assert (d + x)[1..] == d[1..] + x;
      DigitsRead(d[1..], x);
      assert d == [d[0]] + d[1..];
    }
  }

  lemma ExponentReads(e: Option<Exponent>, x: string)
    requires e.Some? ==> e.value.sign in {"", "+", "-"} && AllDigits(e.value.digits) && e.value.digits != ""
    requires Ends(x)
    ensures ReadExponent(ExponentText(e) + x) == Some((e, x))
  {
    var s := ExponentText(e) + x;
    if e.None? {
      assert s == x;
    } else {
      PowerReads(e.value, x);
      ExponentCase(if e.value.upper then 'E' else 'e', e.value.sign + (e.value.digits + x));
      Joined(if e.value.upper then "E" else "e", e.value.sign, e.value.digits, x);
    }
  }

  lemma ExponentCase(c: char, t: string)
    requires c == 'e' || c == 'E'
    ensures ReadExponent([c] + t) == var power := ReadPower(c == 'E', t); if power.None? then None else Some((Some(power.value.0), power.value.1))
  {
    assert ([c] + t)[1..] == t;
  }

  lemma Joined(a: string, b: string, c: string, x: string)
    ensures (a + b + c) + x == a + (b + (c + x))
  {
  }

  lemma PowerReads(e: Exponent, x: string)
    requires e.sign in {"", "+", "-"} && AllDigits(e.digits) && e.digits != "" && NoDigit(x)
    ensures ReadPower(e.upper, e.sign + (e.digits + x)) == Some((e, x))
  {
    var d, s := e.digits + x, e.sign + (e.digits + x);
    assert d[0] == e.digits[0] && s[|e.sign|..] == d;
    assert if e.sign == "" then s[0] == d[0] else s[0] == e.sign[0];
    DigitsRead(e.digits, x);
  }

  lemma FractionReads(f: Option<string>, x: string)
    requires (f.Some? ==> AllDigits(f.value) && f.value != "") && NoDigit(x) && !Leads(x, '.')
    ensures ReadFraction((if f.Some? then "." + f.value else "") + x) == Some((f, x))
  {
    var s := (if f.Some? then "." + f.value else "") + x;
    if f.None? {
      assert s == x;
    } else {
      assert s[1..] == f.value + x;
      DigitsRead(f.value, x);
    }
  }

  lemma UnsignedReads(n: Number, x: string)
    requires WellFormed(n) && Ends(x)
    ensures ReadUnsigned(n.negative, Unsigned(n) + x) == Some((n, x))
  {
    var e := ExponentText(n.exponent) + x;
    var point := if n.fraction.Some? then "." + n.fraction.value else "";
    Joined(n.integer, point, ExponentText(n.exponent), x);
    ExponentLeads(n.exponent, x);
    FractionLeads(n.fraction, e);
    DigitsRead(n.integer, point + e);
    FractionReads(n.fraction, e);
    ExponentReads(n.exponent, x);
  }

  lemma ExponentLeads(e: Option<Exponent>, x: string)
    requires Ends(x)
    ensures NoDigit(ExponentText(e) + x) && !Leads(ExponentText(e) + x, '.')
  {
    if e.None? {
      assert ExponentText(e) + x == x;
    }
  }

  lemma FractionLeads(f: Option<string>, x: string)
    requires NoDigit(x)
    ensures NoDigit((if f.Some? then "." + f.value else "") + x)
  {
    if f.None? {
      assert "" + x == x;
    }
  }

  lemma NumberReads(n: Number, x: string)
    requires WellFormed(n) && Ends(x)
    ensures ReadNumber(Text(n) + x) == Some((n, x))
  {
    UnsignedReads(n, x);
    if n.negative {
      assert (Text(n) + x)[1..] == Unsigned(n) + x;
    } else {
      assert (Text(n) + x)[0] == n.integer[0];
    }
  }

  // -------------------------------------------------------------- values are read back

  // No value starts with a blank or with what closes or separates values.
  lemma StartsCleanly(v: Json, x: string)
    requires Decoded(v)
    ensures var s := Write(v) + x; Skip(s) == s && !Leads(s, ']')
  {
    WriteStarts(v);
    assert (Write(v) + x)[0] == Write(v)[0];
  }

  // What ReadValue does at each first character.
  lemma NumberCase(s: string)
    requires s != "" && (IsDigit(s[0]) || s[0] == '-')
    ensures ReadValue(s) == var n := ReadNumber(s); if n.None? then None else Some((Num(n.value.0), n.value.1))
  {
    assert !Begins(s, "null") && !Begins(s, "true") && !Begins(s, "false");
  }

  lemma ArrayCase(s: string)
    requires Leads(s, '[')
    ensures Leads(Skip(s[1..]), ']') ==> ReadValue(s) == Some((Arr([]), Skip(s[1..])[1..]))
    ensures !Leads(Skip(s[1..]), ']') ==> ReadValue(s) == var items := ReadItems(s[1..]); if items.None? then None else Some((Arr(items.value.0), items.value.1))
  {
    assert !Begins(s, "null") && !Begins(s, "true") && !Begins(s, "false");
  }

  lemma ObjectCase(s: string)
    requires Leads(s, '{')
    ensures Leads(Skip(s[1..]), '}') ==> ReadValue(s) == Some((Obj(map[]), Skip(s[1..])[1..]))
    ensures !Leads(Skip(s[1..]), '}') ==> ReadValue(s) == var fields := ReadFields(s[1..]); if fields.None? then None else Some((Obj(fields.value.0), fields.value.1))
  {
    assert !Begins(s, "null") && !Begins(s, "true") && !Begins(s, "false");
  }

  lemma WordReads(v: Json, x: string)
    requires v.Null? || v.Bool?
    ensures ReadValue(Write(v) + x) == Some((v, x))
  {
    var w, s := Write(v), Write(v) + x;
    assert s[..|w|] == w && s[|w|..] == x && s[0] == w[0];
    assert Skip(s) == s;
  }

  lemma TextReads(t: string, x: string)
    ensures ReadValue(Quote(t) + x) == Some((Str(t), x))
  {
    var s := Quote(t) + x;
    QuoteStep(t, x);
    assert s[0] == '"' && s[1..] == Quoted(t) + x;
    CharsRead(t, x);
  }

  lemma NumReads(n: Number, x: string) returns (m: Number)
    requires WellFormed(n) && Ends(x)
    ensures ReadValue(WriteNumber(n) + x) == Some((Num(m), x)) && WellFormed(m) && Value(m) == Value(n)
  {
    m := NormalizeIsExact(n);
    NumberChars(m);
    assert (Text(m) + x)[0] == Text(m)[0];
    NumberCase(Text(m) + x);
    NumberReads(m, x);
  }

  lemma {:induction false} ReadsBack(v: Json, x: string) returns (u: Json)
    requires Decoded(v) && Ends(x)
    ensures ReadValue(Write(v) + x) == Some((u, x)) && Same(u, v) && Decoded(u)
    decreases v, 1, 0
  {
    match v
    case Null => WordReads(v, x); u := v;
    case Bool(_) => WordReads(v, x); u := v;
    case Str(t) => TextReads(t, x); u := v;
    case Num(n) =>
      var m := NumReads(n, x);
      u := Num(m);
    case Arr(items) =>
      if items == [] {
        EmptyArrayReads(v, x);
        u := v;
      } else {
        var us := ItemsRead(v, items, x);
        ArrayReads(v, x, us);
        u := Arr(us);
      }
    case Obj(fields) =>
      if fields.Keys == {} {
        EmptyObjectReads(v, x);
        u := v;
      } else {
        var us := FieldsRead(v, Sorted(fields.Keys), x);
        ObjectReads(v, x, us);
        u := Obj(us);
      }
  }

  lemma EmptyArrayReads(v: Json, x: string)
    requires v == Arr([])
    ensures ReadValue(Write(v) + x) == Some((v, x))
  {
    var s := Write(v) + x;
    assert s[0] == '[' && s[1..] == "]" + x && ("]" + x)[1..] == x;
    ArrayCase(s);
  }

  lemma ArrayReads(v: Json, x: string, us: seq<Json>)
    requires v.Arr? && Decoded(v) && v.items != []
    requires ReadItems(Write(v.items[0]) + (Elements(v, v.items[1..], false) + x)) == Some((us, x))
    ensures ReadValue(Write(v) + x) == Some((Arr(us), x))
  {
    var s := Write(v) + x;
    assert s[0] == '[' && s[1..] == Elements(v, v.items, true) + x;
    ElementsShow(v, v.items, true, x);
    var t := Write(v.items[0]) + (Elements(v, v.items[1..], false) + x);
    assert s[1..] == t;
    StartsCleanly(v.items[0], Elements(v, v.items[1..], false) + x);
    ArrayCase(s);
  }

  lemma EmptyObjectReads(v: Json, x: string)
    requires v.Obj? && Decoded(v) && v.fields.Keys == {}
    ensures ReadValue(Write(v) + x) == Some((v, x))
  {
    var s := Write(v) + x;
    assert v.fields == map[];
    assert Sorted(v.fields.Keys) == [];
    assert Write(v) == "{" + Members(v, [], true) == "{}";
    assert s[0] == '{' && s[1..] == "}" + x && ("}" + x)[1..] == x;
    ObjectCase(s);
  }

  lemma ObjectReads(v: Json, x: string, us: map<string, Json>)
    requires v.Obj? && Decoded(v) && v.fields.Keys != {}
    requires var keys := Sorted(v.fields.Keys);
             && keys != [] && ReadFields(Quote(keys[0]) + (":" + (Write(v.fields[keys[0]]) + (Members(v, keys[1..], false) + x)))) == Some((us, x))
    ensures ReadValue(Write(v) + x) == Some((Obj(us), x))
  {
    ObjectText(v, Sorted(v.fields.Keys), x);
    var keys := Sorted(v.fields.Keys);
    NonEmptyObject(Quote(keys[0]) + (":" + (Write(v.fields[keys[0]]) + (Members(v, keys[1..], false) + x))), us, x);
  }

  lemma ObjectText(v: Json, keys: seq<string>, x: string)
    requires v.Obj? && Decoded(v) && keys == Sorted(v.fields.Keys) && keys != []
    ensures Write(v) + x == "{" + (Quote(keys[0]) + (":" + (Write(v.fields[keys[0]]) + (Members(v, keys[1..], false) + x))))
  {
    MembersShow(v, keys, true, x);
    Wrapped(Members(v, keys, true), x, Quote(keys[0]) + (":" + (Write(v.fields[keys[0]]) + (Members(v, keys[1..], false) + x))));
  }

  lemma Wrapped(m: string, x: string, t: string)
    requires m + x == "" + t
    ensures ("{" + m) + x == "{" + t
  {
    assert ("{" + m) + x == "{" + (m + x) && "" + t == t;
  }

  lemma NonEmptyObject(t: string, us: map<string, Json>, x: string)
    requires ReadFields(t) == Some((us, x))
    ensures ReadValue("{" + t) == Some((Obj(us), x))
  {
    assert ("{" + t)[1..] == t && Leads(Skip(t), '"');
    ObjectCase("{" + t);
  }

  lemma {:induction false} ItemsRead(v: Json, items: seq<Json>, x: string) returns (us: seq<Json>)
    requires Within(v, items) && items != []
    ensures ReadItems(Write(items[0]) + (Elements(v, items[1..], false) + x)) == Some((us, x))
    ensures |us| == |items| && forall i :: 0 <= i < |us| ==> Same(us[i], items[i]) && Decoded(us[i])
    decreases v, 0, |items|
  {
    var rest := Elements(v, items[1..], false) + x;
    ElementsShow(v, items[1..], false, x);
    var u := ReadsBack(items[0], rest);
    assert Skip(rest) == rest;
    if items[1..] == [] {
      us := [u];
      assert rest[1..] == x;
    } else {
      var more := ItemsRead(v, items[1..], x);
      assert rest[1..] == Write(items[1]) + (Elements(v, items[1..][1..], false) + x);
      us := [u] + more;
    }
  }

  lemma {:induction false} FieldsRead(v: Json, keys: seq<string>, x: string) returns (us: map<string, Json>)
    requires Holds(v, keys) && keys != []
    ensures ReadFields(Quote(keys[0]) + (":" + (Write(v.fields[keys[0]]) + (Members(v, keys[1..], false) + x)))) == Some((us, x))
    ensures us.Keys == (set k | k in keys) && forall k :: k in us ==> Same(us[k], v.fields[k]) && Decoded(us[k])
    decreases v, 0, |keys|
  {
    var rest := Members(v, keys[1..], false) + x;
    MembersShow(v, keys[1..], false, x);
    var u := ReadsBack(v.fields[keys[0]], rest);
    FieldReads(keys[0], v.fields[keys[0]], rest, u);
    assert Skip(rest) == rest;
    assert keys == [keys[0]] + keys[1..];
    if keys[1..] == [] {
      us := map[keys[0] := u];
      assert rest[1..] == x;
    } else {
      var more := FieldsRead(v, keys[1..], x);
      us := map[keys[0] := u] + more;
      FieldsCase(Quote(keys[0]) + (":" + (Write(v.fields[keys[0]]) + rest)), keys[0], u, rest, more, x);
    }
  }

  lemma FieldsCase(s: string, k: string, u: Json, t: string, more: map<string, Json>, x: string)
    requires ReadField(s) == Some(((k, u), t)) && Leads(t, ',') && ReadFields(t[1..]) == Some((more, x))
    ensures ReadFields(s) == Some((map[k := u] + more, x))
  {
    assert Skip(t) == t;
  }

  lemma FieldReads(k: string, v: Json, rest: string, u: Json)
    requires Decoded(v) && ReadValue(Write(v) + rest) == Some((u, rest))
    ensures ReadField(Quote(k) + (":" + (Write(v) + rest))) == Some(((k, u), rest))
  {
    var tail := ":" + (Write(v) + rest);
    var s := Quote(k) + tail;
    QuoteStep(k, tail);
    assert s[0] == '"' && s[1..] == Quoted(k) + tail;
    CharsRead(k, tail);
    assert Skip(tail) == tail && tail[1..] == Write(v) + rest;
  }

  // Every canonical text is JSON for its value, up to the numeric value of numbers, and
  // printing what was read gives the text again.
  lemma CanonicalTextIsJson(v: Json)
    requires Decoded(v)
    ensures Parse(Write(v)).Some? && Same(Parse(Write(v)).value, v)
    ensures Decoded(Parse(Write(v)).value) && Write(Parse(Write(v)).value) == Write(v)
  {
    var u := ReadsBack(v, "");
    assert Write(v) + "" == Write(v);
    SameWrites(u, v);
  }
}
