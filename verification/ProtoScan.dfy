// The text of a schema, line by line: what the expressions of script/check_proto_compat.py
// find on a line, and how script/metrics.py prints a field and a message's first line.
// Character classes are the ASCII ones.

module ProtoScan {
  import opened Text
  import opened ProtoSchema

  // ---- Characters -----------------------------------------------------------

  /** Where splitlines splits. Empty lines are nothing to the parser, so neither is it that
      "\r\n" is one break. */
  predicate IsBreak(c: char) {
    c in {'\n', '\r', '\U{0B}', '\U{0C}', '\U{1C}', '\U{1D}', '\U{1E}', '\U{85}', '\U{2028}', '\U{2029}'}
  }

  predicate IsSpace(c: char) { c in {' ', '\t', '\n', '\r', '\U{0B}', '\U{0C}', '\U{1C}', '\U{1D}', '\U{1E}',
                                     '\U{1F}'} }

  predicate IsWord(c: char) { IsAlnum(c) || c == '_' }

  predicate IsDotted(c: char) { IsWord(c) || c == '.' }

  predicate NotClosing(c: char) { c != '>' }

  predicate NotBreak(c: char) { !IsBreak(c) }

  /** The longest prefix in the class, and the rest. */
  function Run(s: string, cls: char -> bool): (r: (string, string))
    ensures r.0 + r.1 == s
    ensures forall i :: 0 <= i < |r.0| ==> cls(r.0[i])
  {
    var n := RunLength(s, cls);
    (s[..n], s[n..])
  }

  lemma RunSplits(a: string, b: string, cls: char -> bool)
    requires (forall i :: 0 <= i < |a| ==> cls(a[i])) && (b == "" || !cls(b[0]))
    ensures Run(a + b, cls) == (a, b)
  {
    RunEnds(a, b, cls);
  }

  function Skip(s: string): string { Run(s, IsSpace).1 }

  lemma SkipOne(s: string)
    requires s == "" || !IsSpace(s[0])
    ensures Skip(s) == s && Skip(" " + s) == s && Skip("    " + s) == s
  {
    RunSplits("", s, IsSpace);
    RunSplits(" ", s, IsSpace);
    RunSplits("    ", s, IsSpace);
    assert "" + s == s;
  }

  // ---- The expressions ------------------------------------------------------

  /** (map<[^>]+>|[\w.]+) */
  function TakeType(s: string): Option<(string, string)> {
    if HasPrefix(s, "map<") then
      var (inner, rest) := Run(s[4..], NotClosing);
      if inner == "" || rest == "" then None else Some(("map<" + (inner + ">"), rest[1..]))
    else
      var (typ, rest) := Run(s, IsDotted);
      if typ == "" then None else Some((typ, rest))
  }

  /** \s+(\w+) */
  function TakeName(s: string): Option<(string, string)> {
    var (space, r) := Run(s, IsSpace);
    var (name, rest) := Run(r, IsWord);
    if space == "" || name == "" then None else Some((name, rest))
  }

  /** (\d+)\s*[;\[] */
  function TakeDigits(s: string): Option<nat> {
    var (digits, rest) := Run(s, IsDigit);
    var end := Skip(rest);
    if digits == "" || end == "" || end[0] !in {';', '['} then None else Some(ValueOf(digits))
  }

  /** \s*=\s*, and what follows */
  function TakeEquals(s: string): Option<string> {
    var r := Skip(s);
    if r == "" || r[0] != '=' then None else Some(Skip(r[1..]))
  }

  function TakeNumber(s: string): Option<nat> {
    match TakeEquals(s)
    case None => None
    case Some(r) => TakeDigits(r)
  }

  function FieldAt(s: string): Option<(Field, int)> {
    match TakeType(s)
    case None => None
    case Some((typ, r)) =>
      match TakeName(r)
      case None => None
      case Some((name, r')) =>
        match TakeNumber(r')
        case None => None
        case Some(num) => Some((Field(name, typ), num))
  }

  /** FIELD. Each part is taken whole: less of it would leave a character the next part cannot
      start with. Only the optional prefix has a second try, without it. */
  function ScanField(line: string): Option<(Field, int)> {
    var s := Skip(line);
    var (w, r) := Run(s, IsDotted);
    if w in {"optional", "repeated"} && r != "" && IsSpace(r[0]) then
      match FieldAt(Skip(r))
      case Some(f) => Some(f)
      case None => FieldAt(s)
    else FieldAt(s)
  }

  /** -?\d+, and the end of the line's statement */
  function TakeSigned(s: string): Option<int> {
    if s != "" && s[0] == '-' then
      match TakeDigits(s[1..])
      case None => None
      case Some(n) => var z: int := n; Some(0 - z)
    else
      match TakeDigits(s)
      case None => None
      case Some(n) => Some(n)
  }

  /** ENUM_VALUE */
  function ScanValue(line: string): Option<(string, int)> {
    var (name, r) := Run(Skip(line), IsWord);
    if name == "" then None
    else
      match TakeEquals(r)
      case None => None
      case Some(r') =>
        match TakeSigned(r')
        case None => None
        case Some(n) => Some((name, n))
  }

  /** BLOCK */
  function ScanBlock(line: string): Option<(string, string)> {
    var (kind, r) := Run(Skip(line), IsDotted);
    if kind in {"message", "enum", "oneof", "extend", "service"} && r != "" && IsSpace(r[0]) then
      var (name, r') := Run(Skip(r), IsDotted);
      var end := Skip(r');
      if name != "" && end != "" && end[0] == '{' then Some((kind, name)) else None
    else None
  }

  /** raw.split("//", 1)[0] */
  function Uncomment(s: string): string {
    if s == "" || HasPrefix(s, "//") then "" else [s[0]] + Uncomment(s[1..])
  }

  function Count(s: string, c: char): nat {
    if s == "" then 0 else (if s[0] == c then 1 else 0) + Count(s[1..], c)
  }

  /** What the parser finds on a line; the other expressions are not tried on a block line. */
  function LineOf(raw: string): Line {
    var l := Uncomment(raw);
    var block := ScanBlock(l);
    Line(block, if block.Some? then None else ScanField(l), if block.Some? then None else ScanValue(l),
         Count(l, '{'), Count(l, '}'))
  }

  function SplitLines(s: string): seq<string>
    decreases |s|
  {
    var n := RunLength(s, NotBreak);
    if n == |s| then [s] else [s[..n]] + SplitLines(s[n + 1..])
  }

  function Lines(raws: seq<string>): (r: seq<Line>)
    ensures |r| == |raws|
  {
    seq(|raws|, i requires 0 <= i < |raws| => LineOf(raws[i]))
  }

  function ParseText(text: string): Schema { ParseLines(Parser(map[], []), Lines(SplitLines(text))).out }

  method Parse(text: string) returns (out: Schema)
    ensures out == ParseText(text)
  {
    hide LineOf, SplitLines, ParseLine;
    out := map[];
    var stack: seq<(string, string)> := [];
    var raws := SplitLines(text);
    assert Lines(raws[..0]) == [];
    for i := 0 to |raws|
      invariant Parser(out, stack) == ParseLines(Parser(map[], []), Lines(raws[..i]))
    {
      LinesSnoc(raws, i);
      out, stack := ParseOneLine(out, stack, raws[i]);
    }
    assert raws[..|raws|] == raws;
  }

  /** The body of parse's loop. */
  method ParseOneLine(out: Schema, stack: seq<(string, string)>, raw: string)
      returns (out': Schema, stack': seq<(string, string)>)
    ensures Parser(out', stack') == ParseLine(Parser(out, stack), LineOf(raw))
  {
    hide Uncomment, ScanBlock, ScanField, ScanValue, Count, Owners, Put;
    out', stack' := out, stack;
    var line := Uncomment(raw);
    var block := ScanBlock(line);
    if block.Some? {
      stack' := stack + [block.value];
      if Count(line, '}') >= Count(line, '{') {
        stack' := stack'[..|stack'| - 1];
        assert stack' == stack;
      }
      return;
    }
    if stack != [] {
      var kind := stack[|stack| - 1].0;
      var container := Join(Owners(stack), '.');
      if kind in {"message", "oneof", "extend"} {
        var f := ScanField(line);
        if f.Some? { out' := Put(out, container, f.value.1, (f.value.0.name, f.value.0.typ)); }
      } else if kind == "enum" {
        var e := ScanValue(line);
        if e.Some? { out' := Put(out, "enum " + container, e.value.1, (e.value.0, "enum")); }
      }
    }
    stack' := PopTimes(stack, Count(line, '}'));
  }

  method PopTimes(stack: seq<(string, string)>, n: nat) returns (r: seq<(string, string)>)
    ensures r == if n >= |stack| then [] else stack[..|stack| - n]
  {
    r := stack;
    for i := 0 to n
      invariant r == if i >= |stack| then [] else stack[..|stack| - i]
    {
      if r != [] { r := r[..|r| - 1]; }
    }
  }

  lemma LinesSnoc(raws: seq<string>, i: nat)
    requires i < |raws|
    ensures |Lines(raws[..i + 1])| == i + 1 && Lines(raws[..i + 1])[i] == LineOf(raws[i])
    ensures Lines(raws[..i + 1])[..i] == Lines(raws[..i])
  {
    hide LineOf;
  }

  // ---- Printing -------------------------------------------------------------

  /** A printed field: the words in front of its type, and the field. */
  datatype Decl = Decl(prefix: string, field: Field)

  function NumberText(num: nat): string { " = " + (Decimal(num) + ";") }

  function NameText(name: string, num: nat): string { " " + (name + NumberText(num)) }

  function BodyText(f: Field, num: nat): string { f.typ + NameText(f.name, num) }

  function DeclText(d: Decl, num: nat): string { "    " + (d.prefix + BodyText(d.field, num)) }

  function DeclTexts(ds: seq<Decl>, first: nat): seq<string> {
    seq(|ds|, i requires 0 <= i < |ds| => DeclText(ds[i], first + i))
  }

  function MetricDecls(m: Metric): seq<Decl> {
    match m.expanded
    case Some(fields) => Plain(fields)
    case None =>
      if m.presence then [if m.repeated then Decl("", Field(m.name, "StringList"))
                          else Decl("optional ", Field(m.name, m.typ))]
      else [Decl(if m.repeated then "repeated " else "", Field(m.name, m.typ))]
  }

  function Plain(fields: seq<Field>): seq<Decl> { seq(|fields|, i requires 0 <= i < |fields| => Decl("", fields[i])) }

  function DeclsOf(metrics: seq<Metric>): seq<Decl> {
    if metrics == [] then [] else DeclsOf(metrics[..|metrics| - 1]) + MetricDecls(metrics[|metrics| - 1])
  }

  function MessageText(name: string, body: seq<string>): seq<string> { ["message " + (name + " {")] + body + ["}", ""] }

  // ---- Shapes the expressions can find --------------------------------------

  predicate WordName(s: string) { s != "" && forall i :: 0 <= i < |s| ==> IsWord(s[i]) }

  predicate DottedName(s: string) { s != "" && forall i :: 0 <= i < |s| ==> IsDotted(s[i]) }

  predicate MapType(t: string) {
    |t| >= 6 && HasPrefix(t, "map<") && t[|t| - 1] == '>' && forall i :: 4 <= i < |t| - 1 ==> t[i] != '>'
  }

  predicate NoSlashes(s: string) { forall i :: 0 <= i < |s| - 1 ==> !(s[i] == '/' && s[i + 1] == '/') }

  predicate OneLine(s: string) { forall i :: 0 <= i < |s| ==> !IsBreak(s[i]) }

  predicate TypeShaped(t: string) { (DottedName(t) || MapType(t)) && NoSlashes(t) && OneLine(t) }

  predicate FieldShaped(f: Field) { WordName(f.name) && TypeShaped(f.typ) }

  predicate BraceFree(s: string) { forall i :: 0 <= i < |s| ==> s[i] != '{' && s[i] != '}' }

  // ---- What is found on a printed field -------------------------------------

  lemma EqualsPrinted(end: string)
    requires end != "" && !IsSpace(end[0])
    ensures TakeEquals(" = " + end) == Some(end)
    ensures Run(" = " + end, IsSpace) == (" ", "= " + end)
  {
    var r := "= " + end;
    assert " = " + end == " " + r && r[1..] == " " + end;
    RunSplits(" ", r, IsSpace);
    SkipOne(end);
    hide Run, RunLength;
  }

  lemma DigitsPrinted(d: string)
    requires AllDigits(d) && d != ""
    ensures TakeDigits(d + ";") == Some(ValueOf(d))
  {
    RunSplits(d, ";", IsDigit);
    SkipOne(";");
    hide Run, RunLength, ValueOf;
  }

  lemma TakeNumberPrinted(num: nat)
    ensures TakeNumber(NumberText(num)) == Some(num)
    ensures Run(NumberText(num), IsSpace) == (" ", "= " + (Decimal(num) + ";"))
  {
    DecimalValue(num);
    var d := Decimal(num);
    var end := d + ";";
    assert end[0] == d[0] && !IsSpace(d[0]);
    assert NumberText(num) == " = " + end;
    hide *;
    DigitsPrinted(d);
    EqualsPrinted(end);
    NumberBy(NumberText(num), end);
  }

  lemma NumberBy(s: string, r: string)
    requires TakeEquals(s) == Some(r)
    ensures TakeNumber(s) == TakeDigits(r)
  {
    hide TakeEquals, TakeDigits;
  }

  lemma TakeNamePrinted(name: string, num: nat)
    requires WordName(name)
    ensures TakeName(NameText(name, num)) == Some((name, NumberText(num)))
    ensures Skip(NameText(name, num)) == name + NumberText(num)
  {
    RunSplits(" ", name + NumberText(num), IsSpace);
    RunSplits(name, NumberText(num), IsWord);
  }

  lemma TakeTypePrinted(typ: string, rest: string)
    requires (DottedName(typ) || MapType(typ)) && rest != "" && rest[0] == ' '
    ensures TakeType(typ + rest) == Some((typ, rest))
  {
    var s := typ + rest;
    if MapType(typ) {
      var inner := typ[4..|typ| - 1];
      assert s[..4] == "map<";
      assert s[4..] == inner + (">" + rest);
      RunSplits(inner, ">" + rest, NotClosing);
      assert (">" + rest)[1..] == rest;
      assert typ == "map<" + (inner + ">");
    } else {
      NoAngle(typ, rest);
      RunSplits(typ, rest, IsDotted);
    }
  }

  /** A dotted word followed by a space does not start a map type. */
  lemma NoAngle(typ: string, rest: string)
    requires DottedName(typ) && rest != "" && rest[0] == ' '
    ensures !HasPrefix(typ + rest, "map<")
  {
    var s := typ + rest;
    if |s| >= 4 {
      var k := if |typ| >= 4 then 3 else |typ|;
      assert s[..4][k] == if |typ| >= 4 then typ[3] else ' ';
      assert "map<"[3] == '<' && forall i :: 0 <= i < 4 ==> "map<"[i] != ' ';
    }
  }

  lemma FieldAtPrinted(f: Field, num: nat)
    requires WordName(f.name) && (DottedName(f.typ) || MapType(f.typ))
    ensures FieldAt(BodyText(f, num)) == Some((f, num))
  {
    hide TakeType, TakeName, TakeNumber, NumberText, MapType, WordName, DottedName;
    TakeTypePrinted(f.typ, NameText(f.name, num));
    TakeNamePrinted(f.name, num);
    TakeNumberPrinted(num);
  }

  /** Read as a type, a name is followed by no name. */
  lemma NameIsNoField(name: string, num: nat)
    requires WordName(name)
    ensures FieldAt(name + NumberText(num)).None?
  {
    TakeTypePrinted(name, NumberText(num));
    NumberIsNoName(num);
    hide TakeType, TakeName;
  }

  lemma NumberIsNoName(num: nat)
    ensures TakeName(NumberText(num)).None?
  {
    TakeNumberPrinted(num);
    hide Decimal, RunLength, TakeNumber;
    var r := "= " + (Decimal(num) + ";");
    assert r[0] == '=' && "" + r == r;
    RunSplits("", r, IsWord);
    hide NumberText;
  }

  predicate DeclShaped(d: Decl) {
    d.prefix in {"", "optional ", "repeated "} && FieldShaped(d.field) && BraceFree(d.field.typ)
  }

  // Each expression by the first word on a line and what follows it.

  lemma FieldByWord(line: string, s: string, w: string, r: string)
    requires Skip(line) == s && Run(s, IsDotted) == (w, r)
    ensures ScanField(line) == if w in {"optional", "repeated"} && r != "" && IsSpace(r[0]) && FieldAt(Skip(r)).Some?
                               then FieldAt(Skip(r)) else FieldAt(s)
  {
    hide Run, Skip, FieldAt;
  }

  lemma BlockByWord(line: string, s: string, w: string, r: string)
    requires Skip(line) == s && Run(s, IsDotted) == (w, r)
    ensures w !in {"message", "enum", "oneof", "extend", "service"} ==> ScanBlock(line).None?
    ensures (r != "" && Skip(Run(Skip(r), IsDotted).1) != "" && Skip(Run(Skip(r), IsDotted).1)[0] != '{') ==>
               ScanBlock(line).None?
  {
    hide Run, Skip;
  }

  lemma ValueByWord(line: string, s: string, r: string)
    requires Skip(line) == s && Run(s, IsWord).1 == r && TakeEquals(r).None?
    ensures ScanValue(line).None?
  {
    hide Run, Skip, TakeEquals, TakeSigned;
  }

  lemma NoEquals(r: string)
    requires r != "" && r[0] != '=' && !IsSpace(r[0])
    ensures TakeEquals(r).None? && TakeEquals(" " + r).None?
  {
    SkipOne(r);
  }

  function SignedText(n: int): string { if n < 0 then "-" + (Decimal(0 - n) + ";") else Decimal(n) + ";" }

  lemma SignPrinted(end: string, m: nat)
    requires end != "" && IsDigit(end[0]) && TakeDigits(end) == Some(m)
    ensures TakeSigned(end) == Some(m as int) && TakeSigned("-" + end) == Some(0 - m)
    ensures !IsSpace(end[0]) && !IsSpace(("-" + end)[0])
  {
    assert ("-" + end)[1..] == end;
    hide TakeDigits, TakeSigned;
    PlainPrinted(end, m);
    MinusPrinted("-" + end, m);
  }

  lemma PlainPrinted(s: string, m: nat)
    requires s != "" && s[0] != '-' && TakeDigits(s) == Some(m)
    ensures TakeSigned(s) == Some(m as int)
  {
    hide TakeDigits;
  }

  lemma MinusPrinted(s: string, m: nat)
    requires s != "" && s[0] == '-' && TakeDigits(s[1..]) == Some(m)
    ensures TakeSigned(s) == Some(0 - m)
  {
    hide TakeDigits;
  }

  lemma DecimalScans(m: nat)
    ensures Decimal(m) + ";" != "" && IsDigit((Decimal(m) + ";")[0]) && TakeDigits(Decimal(m) + ";") == Some(m)
  {
    DecimalValue(m);
    DigitsPrinted(Decimal(m));
    hide Decimal, TakeDigits, ValueOf;
    assert (Decimal(m) + ";")[0] == Decimal(m)[0];
  }

  lemma SignedPrinted(n: int)
    ensures TakeSigned(SignedText(n)) == Some(n) && SignedText(n) != "" && !IsSpace(SignedText(n)[0])
  {
    var m: nat := if n < 0 then 0 - n else n;
    DecimalScans(m);
    assert SignedText(n) == if n < 0 then "-" + (Decimal(m) + ";") else Decimal(m) + ";";
    hide *;
    SignPrinted(Decimal(m) + ";", m);
  }

  /** An enum's value is found with its number, negative ones too. */
  lemma ValueScans(name: string, n: int)
    requires WordName(name)
    ensures ScanValue("    " + (name + (" = " + SignedText(n)))) == Some((name, n))
  {
    var r := " = " + SignedText(n);
    assert (name + r)[0] == name[0] && !IsSpace(name[0]);
    SkipOne(name + r);
    RunSplits(name, r, IsWord);
    SignedPrinted(n);
    EqualsPrinted(SignedText(n));
    hide Skip, Run, TakeEquals, TakeSigned, SignedText;
  }

  /** "optional " or "repeated " in front. */
  lemma PrefixedScans(w: string, b: string)
    requires w in {"optional", "repeated"} && b != "" && !IsSpace(b[0]) && b[0] != '=' && FieldAt(b).Some?
    ensures var line := "    " + ((w + " ") + b);
            ScanField(line) == FieldAt(b) && ScanBlock(line).None? && ScanValue(line).None?
  {
    hide FieldAt, ScanField, ScanBlock, ScanValue, TakeEquals, RunLength, Run, Skip;
    var s, r := (w + " ") + b, " " + b;
    var line := "    " + s;
    assert s == w + r && !IsSpace(s[0]);
    SkipOne(s);
    SkipOne(b);
    WordEnds(w, r);
    NoEquals(b);
    hide Run, Skip;
    FieldByWord(line, s, w, r);
    BlockByWord(line, s, w, r);
    ValueByWord(line, s, r);
  }

  lemma DottedScans(typ: string, name: string, num: nat)
    requires DottedName(typ) && WordName(name)
    ensures var b := typ + NameText(name, num);
            var line := "    " + b;
            ScanField(line) == FieldAt(b) && ScanBlock(line).None? && ScanValue(line).None?
  {
    var r, nt := NameText(name, num), name + NumberText(num);
    var b := typ + r;
    var line := "    " + b;
    DottedStart(typ, name, num);
    hide *;
    FieldByWord(line, b, typ, r);
    BlockByWord(line, b, typ, r);
    ValueByWord(line, b, Run(b, IsWord).1);
  }

  /** What the three expressions come across on such a line. */
  lemma DottedStart(typ: string, name: string, num: nat)
    requires DottedName(typ) && WordName(name)
    ensures var r := NameText(name, num);
            var b := typ + r;
            && Skip("    " + b) == b && Run(b, IsDotted) == (typ, r) && FieldAt(Skip(r)).None?
            && r != "" && Skip(Run(Skip(r), IsDotted).1) != "" && Skip(Run(Skip(r), IsDotted).1)[0] != '{'
            && TakeEquals(Run(b, IsWord).1).None?
  {
    hide FieldAt, TakeEquals, RunLength, Decimal, Run, Skip;
    var r, nt := NameText(name, num), name + NumberText(num);
    var b := typ + r;
    assert b[0] == typ[0] && nt[0] == name[0];
    SkipOne(b);
    RunSplits(typ, r, IsDotted);
    TakeNamePrinted(name, num);
    NameIsNoField(name, num);
    RunSplits(name, NumberText(num), IsDotted);
    NumberStart(num);
    NoEquals(nt);
    TypeRest(typ, r);
  }

  lemma NumberStart(num: nat)
    ensures Skip(NumberText(num)) != "" && Skip(NumberText(num))[0] == '='
  {
    TakeNumberPrinted(num);
    hide Decimal, TakeNumber, NumberText, Run;
  }

  lemma MapScans(typ: string, tail: string)
    requires MapType(typ) && tail != "" && tail[0] == ' ' && TakeEquals(tail).None?
    ensures var b := typ + tail;
            var line := "    " + b;
            ScanField(line) == FieldAt(b) && ScanBlock(line).None? && ScanValue(line).None?
  {
    hide FieldAt, ScanField, ScanBlock, ScanValue, TakeEquals, RunLength, Run, Skip;
    var b := typ + tail;
    var line := "    " + b;
    MapStart(typ, tail);
    TypeRest(typ, tail);
    FieldByWord(line, b, "map", b[3..]);
    BlockByWord(line, b, "map", b[3..]);
    ValueByWord(line, b, Run(b, IsWord).1);
  }

  lemma MapStart(typ: string, tail: string)
    requires MapType(typ)
    ensures var b := typ + tail;
            |b| >= 6 && Skip("    " + b) == b && Run(b, IsDotted) == ("map", b[3..])
              && Run(b, IsWord) == ("map", b[3..])
            && b[3] == '<'
  {
    hide RunLength, MapType, Skip, Run;
    var b := typ + tail;
    MapPrefix(typ, tail);
    SkipOne(b);
    WordEnds("map", b[3..]);
  }

  lemma MapPrefix(typ: string, tail: string)
    requires MapType(typ)
    ensures var b := typ + tail; |b| >= 6 && b == "map" + b[3..] && b[3] == '<' && b[0] == 'm'
  {
    var b := typ + tail;
    var four := typ[..4];
    assert four == "map<";
    assert b[0] == four[0] && b[1] == four[1] && b[2] == four[2] && b[3] == four[3];
    assert b == b[..3] + b[3..];
    assert b[..3] == "map";
  }

  /** A lower-case word ends where neither a word nor a dotted name goes on. */
  lemma WordEnds(w: string, rest: string)
    requires forall i :: 0 <= i < |w| ==> IsLower(w[i])
    requires rest != "" && rest[0] in {' ', '<', '='}
    ensures Run(w + rest, IsDotted) == (w, rest) && Run(w + rest, IsWord) == (w, rest)
  {
    RunSplits(w, rest, IsDotted);
    RunSplits(w, rest, IsWord);
  }

  lemma DeclScans(d: Decl, num: nat)
    requires DeclShaped(d)
    ensures var line := DeclText(d, num);
            ScanField(line) == Some((d.field, num)) && ScanBlock(line).None? && ScanValue(line).None?
  {
    hide FieldAt, ScanField, ScanBlock, ScanValue, NoSlashes, OneLine, BraceFree, Decimal, Run, Skip, TakeName,
         TakeNumber;
    var b := BodyText(d.field, num);
    BodyStart(d.field, num);
    FieldAtPrinted(d.field, num);
    if d.prefix != "" {
      assert "optional" + " " == "optional " && "repeated" + " " == "repeated ";
      if d.prefix == "optional " { PrefixedScans("optional", b); } else { PrefixedScans("repeated", b); }
    } else {
      assert d.prefix + b == b;
      if DottedName(d.field.typ) {
        DottedScans(d.field.typ, d.field.name, num);
      } else {
        TakeNamePrinted(d.field.name, num);
        NoEquals(d.field.name + NumberText(num));
        assert NameText(d.field.name, num) == " " + (d.field.name + NumberText(num));
        MapScans(d.field.typ, NameText(d.field.name, num));
      }
    }
  }

  /** Past the word characters a type starts with, there is no equals sign. */
  lemma TypeRest(typ: string, tail: string)
    requires (DottedName(typ) || MapType(typ)) && tail != "" && tail[0] == ' ' && TakeEquals(tail).None?
    ensures TakeEquals(Run(typ + tail, IsWord).1).None?
  {
    var s := typ + tail;
    if MapType(typ) {
      MapStart(typ, tail);
      NoEquals(s[3..]);
    } else {
      var n := RunLength(s, IsWord);
      assert n <= |typ| by { assert s[|typ|] == ' '; }
      if n < |typ| {
        assert s[n] == typ[n] == '.';
        NoEquals(s[n..]);
      } else {
        assert s[n..] == tail;
      }
    }
  }

  lemma BodyStart(f: Field, num: nat)
    requires FieldShaped(f)
    ensures var b := BodyText(f, num); b != "" && !IsSpace(b[0]) && b[0] != '='
  {
    hide Decimal, NoSlashes, OneLine;
    assert BodyText(f, num)[0] == f.typ[0];
    if MapType(f.typ) { assert f.typ[0] == f.typ[..4][0]; }
  }

  // ---- Comments and braces --------------------------------------------------

  lemma {:induction false} UncommentClean(s: string)
    requires NoSlashes(s)
    ensures Uncomment(s) == s
  {
    if s != "" {
      if |s| >= 2 { assert s[..2][0] == s[0] && s[..2][1] == s[1] && "//"[0] == '/' == "//"[1]; }
      assert forall i :: 0 <= i < |s[1..]| ==> s[1..][i] == s[i + 1];
      UncommentClean(s[1..]);
    }
  }

  /** What is left has no comment, and only characters of the line in their order. */
  lemma {:induction false} UncommentPrefix(s: string)
    ensures NoSlashes(Uncomment(s)) && |Uncomment(s)| <= |s| && Uncomment(s) == s[..|Uncomment(s)|]
  {
    if s != "" && !HasPrefix(s, "//") {
      UncommentPrefix(s[1..]);
      var u := Uncomment(s[1..]);
      assert Uncomment(s) == [s[0]] + u;
      if |s| >= 2 { assert s[..2] == [s[0], s[1]]; }
    }
  }

  lemma {:induction false} CountNone(s: string, c: char)
    requires forall i :: 0 <= i < |s| ==> s[i] != c
    ensures Count(s, c) == 0
  {
    if s != "" { CountNone(s[1..], c); }
  }

  /** No slash, no brace, no break: what a printed field has around its type. */
  predicate Tame(s: string) { forall i :: 0 <= i < |s| ==> s[i] !in {'/', '{', '}'} && !IsBreak(s[i]) }

  lemma TameAround(front: string, typ: string, tail: string)
    requires Tame(front) && Tame(tail) && NoSlashes(typ) && OneLine(typ) && BraceFree(typ)
    ensures NoSlashes(front + (typ + tail)) && OneLine(front + (typ + tail)) && BraceFree(front + (typ + tail))
  {
    var s := front + (typ + tail);
    forall i | 0 <= i < |s|
      ensures !IsBreak(s[i]) && s[i] != '{' && s[i] != '}' && (i + 1 < |s| ==> !(s[i] == '/' && s[i + 1] == '/'))
    {
      if i < |front| {
        assert s[i] == front[i];
      } else if i < |front| + |typ| {
        assert s[i] == typ[i - |front|];
        if i + 1 < |front| + |typ| {
          assert s[i + 1] == typ[i + 1 - |front|];
        } else if i + 1 < |s| {
          assert s[i + 1] == tail[0];
        }
      } else {
        assert s[i] == tail[i - |front| - |typ|];
      }
    }
  }

  lemma DeclTame(d: Decl, num: nat)
    requires DeclShaped(d)
    ensures NoSlashes(DeclText(d, num)) && OneLine(DeclText(d, num)) && BraceFree(DeclText(d, num))
  {
    DecimalValue(num);
    hide Decimal;
    var tail := NameText(d.field.name, num);
    assert Tame(Decimal(num));
    assert Tame(tail);
    var front := "    " + d.prefix;
    assert Tame(front);
    TameAround(front, d.field.typ, tail);
    assert DeclText(d, num) == front + (d.field.typ + tail);
  }

  lemma DeclIsFieldLine(d: Decl, num: nat)
    requires DeclShaped(d)
    ensures LineOf(DeclText(d, num)) == FieldLine(d.field, num)
  {
    hide DeclText, ScanBlock, ScanField, ScanValue, DeclShaped;
    DeclTame(d, num);
    UncommentClean(DeclText(d, num));
    CountNone(DeclText(d, num), '{');
    CountNone(DeclText(d, num), '}');
    DeclScans(d, num);
  }

  lemma BlockPrinted(name: string)
    requires DottedName(name)
    ensures ScanBlock("message " + (name + " {")) == Some(("message", name))
  {
    hide RunLength, Skip, Run;
    var r := name + " {";
    var line := "message" + (" " + r);
    assert line == "message " + r;
    assert r[0] == name[0];
    SkipOne(line);
    WordEnds("message", " " + r);
    SkipOne(r);
    NameEnds(name);
    SkipOne("{");
    assert " " + "{" == " {";
  }

  lemma NameEnds(name: string)
    requires DottedName(name)
    ensures Run(name + " {", IsDotted) == (name, " {")
  {
    RunSplits(name, " {", IsDotted);
  }

  lemma MessageTame(name: string)
    requires DottedName(name)
    ensures var line := "message " + (name + " {");
            NoSlashes(line) && OneLine(line) && Count(line, '{') == 1 && Count(line, '}') == 0
  {
    var front := "message " + name + " ";
    var line := "message " + (name + " {");
    assert line == front + "{";
    assert forall i :: 0 <= i < |name| ==> name[i] !in {'/', '{', '}'} && !IsBreak(name[i]);
    assert forall i :: 0 <= i < |front| ==> front[i] !in {'/', '{', '}'} && !IsBreak(front[i]);
    assert forall i :: 0 <= i < |line| ==> line[i] == if i < |front| then front[i] else '{';
    CountNone(line, '}');
    CountOneBrace(front);
  }

  lemma MessageIsOpenLine(name: string)
    requires DottedName(name)
    ensures LineOf("message " + (name + " {")) == OpenLine(name)
  {
    hide ScanBlock, Uncomment, Count, NoSlashes, OneLine;
    MessageTame(name);
    UncommentClean("message " + (name + " {"));
    BlockPrinted(name);
  }

  lemma {:induction false} CountOneBrace(s: string)
    requires forall i :: 0 <= i < |s| ==> s[i] != '{'
    ensures Count(s + "{", '{') == 1
  {
    if s == "" {
      assert s + "{" == "{" && "{"[1..] == "";
    } else {
      CountOneBrace(s[1..]);
      assert (s + "{")[1..] == s[1..] + "{";
    }
  }
}
