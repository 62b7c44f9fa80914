// The printed statistics schema (script/metrics.py) and its parse (script/check_proto_compat.py)
// as whole texts: exactly when parsing recovers the numbering.

module ProtoText {
  import opened Text
  import opened ProtoSchema
  import opened ProtoScan

  // ---- The printed schema ---------------------------------------------------

  const ITEMS := [Field("items", "string")]

  function CategoryTexts(categories: seq<Category>): seq<string> {
    if categories == [] then []
    else
      var c := categories[|categories| - 1];
      CategoryTexts(categories[..|categories| - 1]) + MessageText(MessageName(c.name), DeclTexts(DeclsOf(c.metrics), 1))
  }

  function Comment(indent: string, text: string): string { indent + ("//" + text) }

  const SYNTAX_LINE := "syntax" + " = \"proto3\";"

  const PACKAGE_LINE := "package" + " ksdk.stat;"

  const OPTION_LINE := "option" + " go_package = \"stat\";"

  const HEADER := [SYNTAX_LINE, "", PACKAGE_LINE, "", OPTION_LINE, ""]

  // The comments are where they are printed, each cut down to one short line, and so is the
  // path in the option.

  const LIST_COMMENT := [Comment("", " list")]

  const STATS_COMMENT := [Comment("", " stats")]

  const NODE_COMMENT := [Comment("    ", " node")]

  const TYPE_COMMENT := [Comment("    ", " type")]

  const COMMON_NAME := Field("common_name", "string")

  const DP_TYPE := Field("dp_type", "string")

  function StatsBody(s: ProtoSchema.Spec): seq<string> {
    var lead := Leading(s, s.categories);
    var n := |lead| + 1;
    DeclTexts(Plain(lead), 1) + NODE_COMMENT + DeclTexts(Plain([COMMON_NAME]), n)
    + TYPE_COMMENT + DeclTexts(Plain([DP_TYPE]), n + 1) + DeclTexts(Plain(Trailing(s.appended)), n + 2)
  }

  function PrintedLines(s: ProtoSchema.Spec): seq<string> {
    HEADER + LIST_COMMENT + MessageText("StringList", DeclTexts(Plain(ITEMS), 1))
    + CategoryTexts(s.categories) + STATS_COMMENT + MessageText("Stats", StatsBody(s))
  }

  function Unlines(raws: seq<string>): string {
    if raws == [] then "" else Unlines(raws[..|raws| - 1]) + raws[|raws| - 1] + "\n"
  }

  function PrintedText(s: ProtoSchema.Spec): string { Unlines(PrintedLines(s)) }

  lemma {:induction false} UnlinesAppend(a: seq<string>, b: seq<string>)
    ensures Unlines(a + b) == Unlines(a) + Unlines(b)
  {
    if b == [] {
      assert a + b == a;
    } else {
      var rest, last := b[..|b| - 1], b[|b| - 1];
      UnlinesAppend(a, rest);
      assert (a + b)[..|a + b| - 1] == a + rest;
      Associative(Unlines(a), Unlines(rest), last, "\n");
    }
  }

  lemma Associative(a: string, b: string, c: string, d: string)
    ensures a + b + c + d == a + (b + c + d)
  {
  }

  // ---- The lines of a printed schema ----------------------------------------

  const BLANK := Line(None, None, None, 0, 0)

  /** What the parser finds, without the lines on which it finds nothing. */
  function Hits(raws: seq<string>): seq<Line> {
    if raws == [] then []
    else
      var l := LineOf(raws[|raws| - 1]);
      Hits(raws[..|raws| - 1]) + if l == BLANK then [] else [l]
  }

  lemma {:induction false} FoundAppend(a: seq<string>, b: seq<string>)
    ensures Hits(a + b) == Hits(a) + Hits(b)
  {
    hide LineOf;
    if b == [] {
      assert a + b == a;
    } else {
      FoundAppend(a, b[..|b| - 1]);
      assert (a + b)[..|a + b| - 1] == a + b[..|b| - 1];
    }
  }

  lemma SnocLines(rest: seq<string>, raw: string)
    ensures Lines(rest + [raw]) == Lines(rest) + [LineOf(raw)]
    ensures Hits(rest + [raw]) == Hits(rest) + if LineOf(raw) == BLANK then [] else [LineOf(raw)]
  {
    hide LineOf;
    assert (rest + [raw])[..|rest|] == rest;
  }

  lemma ParseSnoc(p: Parser, lines: seq<Line>, l: Line)
    ensures ParseLines(p, lines + [l]) == ParseLine(ParseLines(p, lines), l)
  {
    assert (lines + [l])[..|lines|] == lines;
  }

  lemma {:induction false} BlanksAreNothing(p: Parser, raws: seq<string>)
    ensures ParseLines(p, Lines(raws)) == ParseLines(p, Hits(raws))
  {
    if raws == [] {
      assert Lines([]) == Hits([]) == [];
    } else {
      hide *;
      var rest, raw := raws[..|raws| - 1], raws[|raws| - 1];
      assert raws == rest + [raw];
      BlanksAreNothing(p, rest);
      BlankStep(p, rest, raw);
    }
  }

  lemma BlankStep(p: Parser, rest: seq<string>, raw: string)
    requires ParseLines(p, Lines(rest)) == ParseLines(p, Hits(rest))
    ensures ParseLines(p, Lines(rest + [raw])) == ParseLines(p, Hits(rest + [raw]))
  {
    hide *;
    var q, l := ParseLines(p, Lines(rest)), LineOf(raw);
    SnocLines(rest, raw);
    ParseSnoc(p, Lines(rest), l);
    if l == BLANK {
      BlankIsNothing(q);
      assert Hits(rest + [raw]) == Hits(rest);
    } else {
      ParseSnoc(p, Hits(rest), l);
    }
  }

  lemma BlankIsNothing(p: Parser)
    ensures ParseLine(p, BLANK) == p
  {
    assert p.stack[..|p.stack|] == p.stack;
  }

  lemma FoundOne(raw: string)
    ensures Hits([raw]) == if LineOf(raw) == BLANK then [] else [LineOf(raw)]
  {
    assert [raw][..0] == [];
  }

  predicate AllOneLine(raws: seq<string>) { forall i :: 0 <= i < |raws| ==> OneLine(raws[i]) }

  function FieldLinesFrom(fields: seq<Field>, first: nat): seq<Line> {
    seq(|fields|, i requires 0 <= i < |fields| => FieldLine(fields[i], first + i))
  }

  function Fields(ds: seq<Decl>): seq<Field> { seq(|ds|, i requires 0 <= i < |ds| => ds[i].field) }

  lemma DeclsSnoc(rest: seq<Decl>, d: Decl, first: nat)
    ensures DeclTexts(rest + [d], first) == DeclTexts(rest, first) + [DeclText(d, first + |rest|)]
    ensures FieldLinesFrom(Fields(rest + [d]), first) == FieldLinesFrom(Fields(rest), first)
            + [FieldLine(d.field, first + |rest|)]
  {
    hide DeclText;
  }

  lemma {:induction false} DeclsFound(ds: seq<Decl>, first: nat)
    requires forall i :: 0 <= i < |ds| ==> DeclShaped(ds[i])
    ensures Hits(DeclTexts(ds, first)) == FieldLinesFrom(Fields(ds), first) && AllOneLine(DeclTexts(ds, first))
  {
    hide DeclShaped, DeclText, LineOf, OneLine;
    if ds != [] {
      var n := |ds| - 1;
      var rest, d := ds[..n], ds[n];
      assert ds == rest + [d];
      DeclsFound(rest, first);
      DeclIsFieldLine(d, first + n);
      DeclTame(d, first + n);
      DeclsSnoc(rest, d, first);
      SnocLines(DeclTexts(rest, first), DeclText(d, first + n));
      hide Hits, DeclTexts, FieldLinesFrom, Fields;
    }
  }

  lemma CloseFound()
    ensures Hits(["}", ""]) == [CLOSE_LINE]
  {
    CloseIsCloseLine();
    CommentFree("");
    SpaceIsBlank("");
    hide LineOf, Uncomment;
    SnocLines([], "}");
    SnocLines(["}"], "");
    assert [] + ["}"] == ["}"] && ["}"] + [""] == ["}", ""];
  }

  lemma CommentFree(s: string)
    requires s == "" || s == "}"
    ensures Uncomment(s) == s
  {
    UncommentClean(s);
  }

  lemma CloseIsCloseLine()
    ensures LineOf("}") == CLOSE_LINE
  {
    CommentFree("}");
    BraceScans();
    BraceCounts();
    hide Uncomment, Count, ScanBlock, ScanField, ScanValue;
  }

  lemma BraceCounts()
    ensures Count("}", '}') == 1 && Count("}", '{') == 0
  {
    assert "}"[1..] == "" && Count("", '}') == 0 && Count("", '{') == 0;
  }

  lemma BraceScans()
    ensures ScanBlock("}").None? && ScanField("}").None? && ScanValue("}").None?
  {
    assert "" + "}" == "}";
    SkipOne("}");
    RunSplits("", "}", IsDotted);
    RunSplits("", "}", IsWord);
    NoEquals("}");
    NoFieldAt("}");
    hide *;
    FieldByWord("}", "}", "", "}");
    BlockByWord("}", "}", "", "}");
    ValueByWord("}", "}", "}");
  }

  lemma NoFieldAt(s: string)
    requires Run(s, IsDotted).0 == "" && !HasPrefix(s, "map<")
    ensures FieldAt(s).None?
  {
    hide Run;
  }

  lemma MessageFound(name: string, body: seq<string>)
    requires DottedName(name) && AllOneLine(body)
    ensures Hits(MessageText(name, body)) == [OpenLine(name)] + Hits(body) + [CLOSE_LINE]
    ensures AllOneLine(MessageText(name, body))
  {
    hide LineOf, Hits;
    var open := "message " + (name + " {");
    MessageIsOpenLine(name);
    MessageTame(name);
    FoundOne(open);
    CloseFound();
    FoundAppend([open] + body, ["}", ""]);
    FoundAppend([open], body);
    assert forall i :: 0 <= i < |body| ==> MessageText(name, body)[i + 1] == body[i];
    assert forall i :: 0 <= i < |MessageText(name, body)| ==>
        MessageText(name, body)[i] == if i == 0 then open
                                      else if i <= |body| then body[i - 1] else ["}", ""][i - |body| - 1];
  }

  /** A line with nothing before its comment. */
  lemma CommentIsBlank(indent: string, comment: string)
    requires indent in {"", "    "}
    ensures LineOf(indent + ("//" + comment)) == BLANK
  {
    var s := "//" + comment;
    assert s[..2] == "//";
    if indent == "" {
      assert indent + s == s;
    } else {
      assert indent + s == [' '] + ([' '] + ([' '] + ([' '] + s)));
    }
    assert Uncomment(indent + s) == indent by { UncommentIndent(indent, s); }
    SpaceIsBlank(indent);
  }

  lemma {:induction false} UncommentIndent(indent: string, s: string)
    requires (forall i :: 0 <= i < |indent| ==> indent[i] != '/') && HasPrefix(s, "//")
    ensures Uncomment(indent + s) == indent
  {
    if indent == "" {
      assert indent + s == s;
    } else {
      assert (indent + s)[1..] == indent[1..] + s && (indent + s)[0] == indent[0];
      UncommentIndent(indent[1..], s);
    }
  }

  lemma SpaceIsBlank(indent: string)
    requires indent in {"", "    "}
    ensures ScanBlock(indent).None? && ScanField(indent).None? && ScanValue(indent).None?
    ensures Count(indent, '{') == 0 && Count(indent, '}') == 0
  {
    CountNone(indent, '{');
    CountNone(indent, '}');
    SkipOne("");
    assert "    " + "" == "    ";
    RunSplits("", "", IsDotted);
    RunSplits("", "", IsWord);
    assert "" + "" == "";
    hide Run, Skip, Count;
  }

  // ---- From text to lines and back ------------------------------------------

  lemma UnlinesCons(raw: string, rest: seq<string>)
    ensures Unlines([raw] + rest) == raw + ("\n" + Unlines(rest))
  {
    UnlinesAppend([raw], rest);
    assert [raw][..0] == [];
    assert Unlines([raw]) == raw + "\n";
  }

  lemma {:induction false} SplitUnlines(raws: seq<string>)
    requires AllOneLine(raws)
    ensures SplitLines(Unlines(raws)) == raws + [""]
  {
    if raws == [] {
      assert Unlines([]) == "" && SplitLines("") == [""];
    } else {
      var raw, rest := raws[0], raws[1..];
      assert raws == [raw] + rest;
      SplitUnlines(rest);
      UnlinesCons(raw, rest);
      SplitHead(raw, Unlines(rest));
      hide *;
      assert [raw] + (rest + [""]) == raws + [""];
    }
  }

  lemma SplitHead(raw: string, rest: string)
    requires OneLine(raw)
    ensures SplitLines(raw + ("\n" + rest)) == [raw] + SplitLines(rest)
  {
    var s := raw + ("\n" + rest);
    RunEnds(raw, "\n" + rest, NotBreak);
    assert s[|raw| + 1..] == rest;
  }

  lemma TextParses(raws: seq<string>)
    requires AllOneLine(raws)
    ensures ParseText(Unlines(raws)) == ParseLines(Parser(map[], []), Lines(raws)).out
  {
    SplitUnlines(raws);
    CommentFree("");
    SpaceIsBlank("");
    assert LineOf("") == BLANK;
    hide Uncomment, LineOf, Unlines, SplitLines, AllOneLine;
    SnocLines(raws, "");
    ParseSnoc(Parser(map[], []), Lines(raws), BLANK);
    BlankIsNothing(ParseLines(Parser(map[], []), Lines(raws)));
  }

  // ---- Parsing undoes printing ----------------------------------------------

  /** Every name and type is one the expressions can find. */
  predicate Shaped(s: ProtoSchema.Spec) {
    && (forall i :: 0 <= i < |s.categories| ==>
         DottedName(MessageName(s.categories[i].name)) && AllShaped(FieldsOf(s.categories[i].metrics)))
    && AllShaped(StatsFields(s))
  }

  predicate AllShaped(fields: seq<Field>) { forall i :: 0 <= i < |fields| ==> FieldShaped(fields[i]) }

  predicate AllBraceFree(fields: seq<Field>) { forall i :: 0 <= i < |fields| ==> BraceFree(fields[i].typ) }

  /** No type contains a brace: one inside a map type would close a block. */
  predicate Braceless(s: ProtoSchema.Spec) {
    forall i :: 0 <= i < |s.categories| ==> AllBraceFree(FieldsOf(s.categories[i].metrics))
  }

  predicate Prefixes(ds: seq<Decl>) { forall i :: 0 <= i < |ds| ==> ds[i].prefix in {"", "optional ", "repeated "} }

  lemma {:induction false} DeclsAreFields(metrics: seq<Metric>)
    ensures Fields(DeclsOf(metrics)) == FieldsOf(metrics) && Prefixes(DeclsOf(metrics))
  {
    if metrics != [] {
      var rest, m := metrics[..|metrics| - 1], metrics[|metrics| - 1];
      DeclsAreFields(rest);
      assert Fields(MetricDecls(m)) == MetricFields(m) && Prefixes(MetricDecls(m));
      hide MetricDecls, MetricFields;
      assert Fields(DeclsOf(rest) + MetricDecls(m)) == Fields(DeclsOf(rest)) + Fields(MetricDecls(m));
    }
  }

  lemma FirstWord(w: string, rest: string, v: string)
    requires ' ' !in w && ' ' !in v
    ensures HasPrefix(w + (" " + rest), v + " ") <==> w == v
  {
    var s, p := w + (" " + rest), v + " ";
    CutMeans(s, ' ', w, rest);
    if HasPrefix(s, p) {
      assert s == v + [' '] + s[|p|..];
      CutMeans(s, ' ', v, s[|p|..]);
    }
    if w == v { assert s[..|p|] == p; }
  }

  /** An indented line starts with a word exactly when the rest does. */
  lemma Indented(s: string, word: string)
    ensures HasPrefix("    " + s, "    " + word) <==> HasPrefix(s, word)
  {
    if |word| <= |s| {
      assert ("    " + s)[..4 + |word|] == "    " + s[..|word|];
      assert ("    " + word)[4..] == word && ("    " + s[..|word|])[4..] == s[..|word|];
    }
  }

  predicate StartsWith(line: string, word: string) { HasPrefix(line, "    " + (word + " ")) }

  lemma DeclStarts(d: Decl, num: nat, word: string)
    requires ' ' !in word && word != "" && word[0] != 'm'
    requires d.prefix in {"", "optional ", "repeated "} && (DottedName(d.field.typ) || MapType(d.field.typ))
    ensures StartsWith(DeclText(d, num), word)
            <==> word == if d.prefix == "" then d.field.typ else d.prefix[..|d.prefix| - 1]
  {
    var body := BodyText(d.field, num);
    Indented(d.prefix + body, word + " ");
    if d.prefix == "" {
      assert d.prefix + body == body;
      if DottedName(d.field.typ) {
        assert ' ' !in d.field.typ;
        var tail := d.field.name + NumberText(num);
        assert body == d.field.typ + (" " + tail);
        FirstWord(d.field.typ, tail, word);
      } else {
        assert body[0] == 'm';
      }
    } else {
      var w := d.prefix[..|d.prefix| - 1];
      assert "optional "[..8] == "optional" && "repeated "[..8] == "repeated";
      assert d.prefix == w + " " && ' ' !in w;
      assert d.prefix + body == w + (" " + body);
      FirstWord(w, body, word);
    }
  }

  /** What stands in front of a metric's name: "optional" exactly for a single value with
      presence, "repeated" exactly for a list without, the list message exactly for both. */
  lemma PrefixSays(m: Metric, num: nat)
    requires m.expanded.None? && TypeShaped(m.typ) && m.typ !in {"optional", "repeated", "StringList"}
    ensures |MetricDecls(m)| == 1
    ensures var line := DeclText(MetricDecls(m)[0], num);
            && (StartsWith(line, "optional") <==> m.presence && !m.repeated)
            && (StartsWith(line, "repeated") <==> m.repeated && !m.presence)
            && (StartsWith(line, "StringList") <==> m.presence && m.repeated)
  {
    var d := MetricDecls(m)[0];
    assert DottedName("StringList");
    hide StartsWith, DeclText;
    DeclStarts(d, num, "optional");
    DeclStarts(d, num, "repeated");
    DeclStarts(d, num, "StringList");
    assert "optional "[..8] == "optional" && "repeated "[..8] == "repeated";
  }

  lemma FieldLinesFromOne(fields: seq<Field>)
    ensures FieldLinesFrom(fields, 1) == FieldLines(fields)
  {
  }

  /** Declarations of these fields are found as these fields. */
  lemma FieldsFound(ds: seq<Decl>, first: nat)
    requires Prefixes(ds) && AllShaped(Fields(ds)) && AllBraceFree(Fields(ds))
    ensures Hits(DeclTexts(ds, first)) == FieldLinesFrom(Fields(ds), first) && AllOneLine(DeclTexts(ds, first))
  {
    hide FieldShaped, BraceFree;
    forall i | 0 <= i < |ds| ensures DeclShaped(ds[i]) {
      assert Fields(ds)[i] == ds[i].field;
    }
    DeclsFound(ds, first);
  }

  lemma {:induction false} CategoriesFound(categories: seq<Category>)
    requires forall i :: 0 <= i < |categories| ==> DottedName(MessageName(categories[i].name))
    requires forall i :: 0 <= i < |categories| ==> AllShaped(FieldsOf(categories[i].metrics))
    requires forall i :: 0 <= i < |categories| ==> AllBraceFree(FieldsOf(categories[i].metrics))
    ensures Hits(CategoryTexts(categories)) == Messages(categories) && AllOneLine(CategoryTexts(categories))
  {
    hide DottedName, MessageName, AllShaped, AllBraceFree, FieldsOf, OneLine, LineOf;
    if categories != [] {
      var rest, c := categories[..|categories| - 1], categories[|categories| - 1];
      CategoriesFound(rest);
      DeclsAreFields(c.metrics);
      var ds := DeclsOf(c.metrics);
      FieldsFound(ds, 1);
      FieldLinesFromOne(Fields(ds));
      MessageFound(MessageName(c.name), DeclTexts(ds, 1));
      FoundAppend(CategoryTexts(rest), MessageText(MessageName(c.name), DeclTexts(ds, 1)));
    }
  }

  lemma PlainFields(fields: seq<Field>)
    ensures Fields(Plain(fields)) == fields && Prefixes(Plain(fields))
  {
  }

  lemma {:induction false} StatsParts(s: ProtoSchema.Spec)
    requires AllShaped(StatsFields(s))
    ensures AllShaped(Leading(s, s.categories)) && AllShaped(Trailing(s.appended))
    ensures AllBraceFree(Leading(s, s.categories)) && AllBraceFree(Trailing(s.appended))
    ensures AllShaped([COMMON_NAME]) && AllShaped([DP_TYPE]) && AllBraceFree([COMMON_NAME]) && AllBraceFree([DP_TYPE])
  {
    hide FieldShaped;
    var lead, all := Leading(s, s.categories), StatsFields(s);
    assert forall i :: 0 <= i < |lead| ==> all[i] == lead[i];
    assert forall i :: 0 <= i < |s.appended| ==> all[|lead| + 2 + i] == Trailing(s.appended)[i];
    assert all[|lead|] == COMMON_NAME && all[|lead| + 1] == DP_TYPE;
    LeadingNotMaps(s, s.categories);
    TrailingNotMaps(s.appended);
    NotMapsBraceFree(lead);
    NotMapsBraceFree(Trailing(s.appended));
  }

  predicate NotMaps(fields: seq<Field>) {
    forall i :: 0 <= i < |fields| ==> fields[i].typ != "" && fields[i].typ[|fields[i].typ| - 1] != '>'
  }

  lemma NotMapsBraceFree(fields: seq<Field>)
    requires AllShaped(fields) && NotMaps(fields)
    ensures AllBraceFree(fields)
  {
    forall i | 0 <= i < |fields| ensures BraceFree(fields[i].typ) {
      assert FieldShaped(fields[i]);
    }
  }

  lemma {:induction false} LeadingNotMaps(s: ProtoSchema.Spec, categories: seq<Category>)
    ensures NotMaps(Leading(s, categories))
  {
    if categories != [] { LeadingNotMaps(s, categories[..|categories| - 1]); }
  }

  lemma TrailingNotMaps(names: seq<string>)
    ensures NotMaps(Trailing(names))
  {
  }

  lemma FieldLinesJoin(a: seq<Field>, b: seq<Field>, first: nat)
    ensures FieldLinesFrom(a + b, first) == FieldLinesFrom(a, first) + FieldLinesFrom(b, first + |a|)
  {
  }

  lemma CommentFound(indent: string, text: string)
    requires indent in {"", "    "} && OneLine(text)
    ensures Hits([Comment(indent, text)]) == [] && AllOneLine([Comment(indent, text)])
  {
    hide LineOf;
    CommentIsBlank(indent, text);
    FoundOne(Comment(indent, text));
  }

  lemma CommentsFound()
    ensures Hits(LIST_COMMENT) == Hits(STATS_COMMENT) == Hits(NODE_COMMENT) == Hits(TYPE_COMMENT) == []
    ensures AllOneLine(LIST_COMMENT) && AllOneLine(STATS_COMMENT) && AllOneLine(NODE_COMMENT)
    ensures AllOneLine(TYPE_COMMENT)
  {
    hide Comment, LineOf, Hits, AllOneLine;
    CommentFound("", " list");
    CommentFound("", " stats");
    CommentFound("    ", " node");
    CommentFound("    ", " type");
  }

  lemma StatsFound(s: ProtoSchema.Spec)
    requires AllShaped(StatsFields(s))
    ensures Hits(StatsBody(s)) == FieldLines(StatsFields(s)) && AllOneLine(StatsBody(s))
  {
    hide AllShaped, AllBraceFree, OneLine, LineOf, Leading, Hits, DeclTexts, FieldLinesFrom, Fields, Plain;
    var lead, trail := Leading(s, s.categories), Trailing(s.appended);
    var n := |lead| + 1;
    StatsParts(s);
    CommentsFound();
    PlainFields(lead);
    PlainFields([COMMON_NAME]);
    PlainFields([DP_TYPE]);
    PlainFields(trail);
    FieldsFound(Plain(lead), 1);
    FieldsFound(Plain([COMMON_NAME]), n);
    FieldsFound(Plain([DP_TYPE]), n + 1);
    FieldsFound(Plain(trail), n + 2);
    var a, b, c, d := DeclTexts(Plain(lead), 1), DeclTexts(Plain([COMMON_NAME]), n), DeclTexts(Plain([DP_TYPE]), n + 1),
                      DeclTexts(Plain(trail), n + 2);
    FoundAppend(a + NODE_COMMENT + b + TYPE_COMMENT + c, d);
    FoundAppend(a + NODE_COMMENT + b + TYPE_COMMENT, c);
    FoundAppend(a + NODE_COMMENT + b, TYPE_COMMENT);
    FoundAppend(a + NODE_COMMENT, b);
    FoundAppend(a, NODE_COMMENT);
    FieldLinesJoin(lead + [COMMON_NAME, DP_TYPE], trail, 1);
    FieldLinesJoin(lead, [COMMON_NAME, DP_TYPE], 1);
    FieldLinesJoin([COMMON_NAME], [DP_TYPE], n);
    assert [COMMON_NAME] + [DP_TYPE] == [COMMON_NAME, DP_TYPE];
    FieldLinesFromOne(StatsFields(s));
  }

  lemma WordLineOpensNothing(w: string, rest: string)
    requires w in {"syntax", "package", "option"} && rest != "" && rest[0] == ' '
    ensures ScanBlock(Uncomment(w + rest)).None?
  {
    UncommentAfter(w, rest);
    var r := Uncomment(rest);
    assert r != "" && r[0] == ' ';
    hide Uncomment;
    FirstWordOpensNothing(w, r);
  }

  lemma FirstWordOpensNothing(w: string, r: string)
    requires w in {"syntax", "package", "option"} && r != "" && r[0] == ' '
    ensures ScanBlock(w + r).None?
  {
    hide Run, Skip, ScanBlock;
    assert (w + r)[0] == w[0] && !IsSpace(w[0]);
    SkipOne(w + r);
    WordEnds(w, r);
    BlockByWord(w + r, w + r, w, r);
  }

  lemma {:induction false} UncommentAfter(w: string, rest: string)
    requires forall i :: 0 <= i < |w| ==> w[i] != '/'
    ensures Uncomment(w + rest) == w + Uncomment(rest)
  {
    if w == "" {
      assert w + rest == rest;
    } else {
      assert (w + rest)[0] == w[0] && (w + rest)[1..] == w[1..] + rest;
      UncommentAfter(w[1..], rest);
    }
  }

  /** Above the first message nothing opens a block, so nothing counts. */
  lemma HeaderIsNothing()
    ensures ParseLines(Parser(map[], []), Lines(HEADER)) == Parser(map[], []) && AllOneLine(HEADER)
  {
    WordLineOpensNothing("syntax", " = \"proto3\";");
    WordLineOpensNothing("package", " ksdk.stat;");
    WordLineOpensNothing("option", " go_package = \"stat\";");
    CommentFree("");
    SpaceIsBlank("");
    HeaderOneLine();
    hide *;
    SixLines(SYNTAX_LINE, PACKAGE_LINE, OPTION_LINE);
  }

  lemma SixLines(a: string, b: string, c: string)
    requires ScanBlock(Uncomment(a)).None? && ScanBlock(Uncomment(b)).None? && ScanBlock(Uncomment(c)).None?
    requires ScanBlock(Uncomment("")).None? && OneLine(a) && OneLine(b) && OneLine(c) && OneLine("")
    ensures ParseLines(Parser(map[], []), Lines([a, "", b, "", c, ""])) == Parser(map[], [])
    ensures AllOneLine([a, "", b, "", c, ""])
  {
    hide *;
    var raws := [a, "", b, "", c, ""];
    forall i | 0 <= i < |raws| ensures ScanBlock(Uncomment(raws[i])).None? && OneLine(raws[i]) {
      assert raws[i] in {a, b, c, ""};
    }
    OutsideIsNothing(raws);
    AllOneLineIs(raws);
  }

  lemma AllOneLineIs(raws: seq<string>)
    requires forall i :: 0 <= i < |raws| ==> OneLine(raws[i])
    ensures AllOneLine(raws)
  {
    hide OneLine;
  }

  lemma HeaderOneLine()
    ensures OneLine(SYNTAX_LINE) && OneLine(PACKAGE_LINE) && OneLine(OPTION_LINE) && OneLine("")
  {
  }

  lemma {:induction false} OutsideIsNothing(raws: seq<string>)
    requires forall i :: 0 <= i < |raws| ==> ScanBlock(Uncomment(raws[i])).None?
    ensures ParseLines(Parser(map[], []), Lines(raws)) == Parser(map[], [])
  {
    hide Uncomment, ScanBlock, ScanField, ScanValue;
    if raws != [] {
      var rest, raw := raws[..|raws| - 1], raws[|raws| - 1];
      assert raws == rest + [raw];
      OutsideIsNothing(rest);
      SnocLines(rest, raw);
      ParseSnoc(Parser(map[], []), Lines(rest), LineOf(raw));
    }
  }

  lemma LinesJoin(a: seq<string>, b: seq<string>)
    ensures Lines(a + b) == Lines(a) + Lines(b)
  {
    hide LineOf;
  }

  function BelowHeader(s: ProtoSchema.Spec): seq<string> {
    LIST_COMMENT + MessageText("StringList", DeclTexts(Plain(ITEMS), 1))
    + CategoryTexts(s.categories) + STATS_COMMENT + MessageText("Stats", StatsBody(s))
  }

  lemma ItemsShaped()
    ensures AllShaped(ITEMS) && AllBraceFree(ITEMS) && DottedName("StringList") && DottedName("Stats")
  {
  }

  lemma ItemsFound()
    ensures Hits(MessageText("StringList", DeclTexts(Plain(ITEMS), 1))) == Message("StringList", ITEMS)
    ensures AllOneLine(MessageText("StringList", DeclTexts(Plain(ITEMS), 1)))
  {
    ItemsShaped();
    PlainFields(ITEMS);
    FieldLinesFromOne(ITEMS);
    hide AllShaped, AllBraceFree, DottedName, FieldLines, FieldLinesFrom, Fields, Plain, Hits, MessageText, DeclTexts,
         AllOneLine;
    FieldsFound(Plain(ITEMS), 1);
    MessageFound("StringList", DeclTexts(Plain(ITEMS), 1));
  }

  lemma StatsMessageFound(s: ProtoSchema.Spec)
    requires AllShaped(StatsFields(s))
    ensures Hits(MessageText("Stats", StatsBody(s))) == Message("Stats", StatsFields(s))
    ensures AllOneLine(MessageText("Stats", StatsBody(s)))
  {
    ItemsShaped();
    hide AllShaped, AllBraceFree, DottedName, FieldLines, StatsFields, StatsBody, Hits, MessageText, AllOneLine;
    StatsFound(s);
    MessageFound("Stats", StatsBody(s));
  }

  lemma BelowHeaderFound(s: ProtoSchema.Spec)
    requires Shaped(s) && Braceless(s)
    ensures Hits(BelowHeader(s)) == Printed(s) && AllOneLine(BelowHeader(s))
  {
    hide AllShaped, AllBraceFree, DottedName, MessageName, FieldsOf, Hits, MessageText, AllOneLine, StatsBody,
         StatsFields,
         CategoryTexts, DeclTexts, Plain, Message, Messages, LIST_COMMENT, STATS_COMMENT;
    CommentsFound();
    ItemsFound();
    CategoriesFound(s.categories);
    StatsMessageFound(s);
    FiveFound(LIST_COMMENT, MessageText("StringList", DeclTexts(Plain(ITEMS), 1)), CategoryTexts(s.categories),
              STATS_COMMENT,
              MessageText("Stats", StatsBody(s)));
  }

  lemma FiveFound(a: seq<string>, b: seq<string>, c: seq<string>, d: seq<string>, e: seq<string>)
    requires AllOneLine(a) && AllOneLine(b) && AllOneLine(c) && AllOneLine(d) && AllOneLine(e)
    ensures Hits(a + b + c + d + e) == Hits(a) + Hits(b) + Hits(c) + Hits(d) + Hits(e)
    ensures AllOneLine(a + b + c + d + e)
  {
    hide *;
    FoundAppend(a + b + c + d, e);
    FoundAppend(a + b + c, d);
    FoundAppend(a + b, c);
    FoundAppend(a, b);
    AllOneLineJoin(a + b + c + d, e);
    AllOneLineJoin(a + b + c, d);
    AllOneLineJoin(a + b, c);
    AllOneLineJoin(a, b);
  }

  /** Names and types the expressions can find: then parsing the printed schema recovers exactly
      the numbering the printer assigned. */
  lemma ParseUndoesPrint(s: ProtoSchema.Spec)
    requires DistinctMessages(s.categories) && Shaped(s) && Braceless(s)
    ensures ParseText(PrintedText(s)) == SchemaOf(s)
  {
    var start := Parser(map[], []);
    var below := BelowHeader(s);
    BelowHeaderFound(s);
    HeaderIsNothing();
    BelowTheHeader(s);
    hide *;
    AllOneLineJoin(HEADER, below);
    TextParses(HEADER + below);
    LinesJoin(HEADER, below);
    ParseAppend(start, Lines(HEADER), Lines(below));
    BlanksAreNothing(start, below);
    ParseUndoesNumbering(s);
    PrintedTextIs(s);
  }

  lemma BelowTheHeader(s: ProtoSchema.Spec)
    ensures PrintedLines(s) == HEADER + BelowHeader(s)
  {
    hide MessageText, CategoryTexts, StatsBody, DeclTexts, Plain;
    JoinSix(HEADER, LIST_COMMENT, MessageText("StringList", DeclTexts(Plain(ITEMS), 1)),
            CategoryTexts(s.categories), STATS_COMMENT, MessageText("Stats", StatsBody(s)));
  }

  lemma JoinSix(a: seq<string>, b: seq<string>, c: seq<string>, d: seq<string>, e: seq<string>, f: seq<string>)
    ensures a + b + c + d + e + f == a + (b + c + d + e + f)
  {
  }

  lemma AllOneLineJoin(a: seq<string>, b: seq<string>)
    ensures AllOneLine(a + b) <==> AllOneLine(a) && AllOneLine(b)
  {
    hide OneLine;
    assert forall i :: 0 <= i < |a| ==> (a + b)[i] == a[i];
    assert forall i :: 0 <= i < |b| ==> (a + b)[|a| + i] == b[i];
  }

  lemma PrintedTextIs(s: ProtoSchema.Spec)
    ensures PrintedText(s) == Unlines(PrintedLines(s))
  {
  }

  // ---- Nothing else can be found --------------------------------------------

  lemma TakeTypeShaped(s: string)
    requires TakeType(s).Some?
    ensures var (typ, rest) := TakeType(s).value;
            typ + rest == s && (DottedName(typ) || MapType(typ))
  {
    hide RunLength;
    if HasPrefix(s, "map<") {
      var (inner, rest) := Run(s[4..], NotClosing);
      RestStops(s[4..], NotClosing);
      hide Run;
      MapParts(s, inner, rest);
    }
  }

  lemma RestStops(s: string, cls: char -> bool)
    ensures Run(s, cls).1 != "" ==> !cls(Run(s, cls).1[0])
  {
  }

  lemma MapParts(s: string, inner: string, rest: string)
    requires HasPrefix(s, "map<") && inner + rest == s[4..] && inner != "" && rest != "" && rest[0] == '>'
    requires forall i :: 0 <= i < |inner| ==> inner[i] != '>'
    ensures var typ := "map<" + (inner + ">"); MapType(typ) && typ + rest[1..] == s
  {
    var four := s[..4];
    var typ := four + (inner + ">");
    assert s == four + s[4..] && rest == ">" + rest[1..];
    assert typ[..4] == four && typ[|typ| - 1] == '>';
    assert forall i :: 4 <= i < |typ| - 1 ==> typ[i] == inner[i - 4];
    assert typ + rest[1..] == four + (inner + (">" + rest[1..]));
  }

  lemma PrefixKeeps(s: string, front: string, rest: string)
    requires NoSlashes(s) && OneLine(s) && front + rest == s
    ensures NoSlashes(front) && OneLine(front)
  {
    assert forall i :: 0 <= i < |front| ==> front[i] == s[i];
  }

  lemma TakeNameShaped(s: string)
    requires TakeName(s).Some?
    ensures WordName(TakeName(s).value.0)
  {
    hide RunLength;
  }

  lemma FieldAtShaped(s: string)
    requires NoSlashes(s) && OneLine(s) && FieldAt(s).Some?
    ensures FieldShaped(FieldAt(s).value.0)
  {
    hide TakeType, TakeName, TakeNumber, NoSlashes, OneLine, DottedName, MapType, WordName;
    var (typ, rest) := TakeType(s).value;
    TakeTypeShaped(s);
    PrefixKeeps(s, typ, rest);
    TakeNameShaped(rest);
  }

  lemma SkipKeeps(s: string)
    requires NoSlashes(s) && OneLine(s)
    ensures NoSlashes(Skip(s)) && OneLine(Skip(s))
  {
    RunKeeps(s, IsSpace);
  }

  lemma RunKeeps(s: string, cls: char -> bool)
    requires NoSlashes(s) && OneLine(s)
    ensures NoSlashes(Run(s, cls).1) && OneLine(Run(s, cls).1)
  {
    var n := RunLength(s, cls);
    assert forall i :: 0 <= i < |s[n..]| ==> s[n..][i] == s[n + i];
  }

  predicate LineShaped(l: Line) {
    && (l.block.Some? ==> DottedName(l.block.value.1))
    && (l.field.Some? ==> FieldShaped(l.field.value.0))
    && (l.value.Some? ==> WordName(l.value.value.0))
  }

  lemma BlockShaped(l: string)
    requires ScanBlock(l).Some?
    ensures DottedName(ScanBlock(l).value.1)
  {
    hide RunLength;
  }

  lemma ValueShaped(l: string)
    requires ScanValue(l).Some?
    ensures WordName(ScanValue(l).value.0)
  {
    hide RunLength, TakeEquals, TakeSigned;
  }

  lemma ScannedFieldShaped(l: string)
    requires NoSlashes(l) && OneLine(l) && ScanField(l).Some?
    ensures FieldShaped(ScanField(l).value.0)
  {
    hide FieldAt, Run, Skip, NoSlashes, OneLine, FieldShaped;
    var s := Skip(l);
    SkipKeeps(l);
    if FieldAt(s).Some? { FieldAtShaped(s); }
    var r := Run(s, IsDotted).1;
    RunKeeps(s, IsDotted);
    SkipKeeps(r);
    if FieldAt(Skip(r)).Some? { FieldAtShaped(Skip(r)); }
  }

  lemma UncommentOneLine(raw: string)
    requires OneLine(raw)
    ensures NoSlashes(Uncomment(raw)) && OneLine(Uncomment(raw))
  {
    UncommentPrefix(raw);
    hide Uncomment, NoSlashes;
  }

  lemma LineIsShaped(raw: string)
    requires OneLine(raw)
    ensures LineShaped(LineOf(raw))
  {
    hide Uncomment, Count, FieldShaped, DottedName, WordName, ScanBlock, ScanField, ScanValue, NoSlashes, OneLine;
    var l := Uncomment(raw);
    UncommentOneLine(raw);
    if ScanBlock(l).Some? { BlockShaped(l); }
    if ScanField(l).Some? { ScannedFieldShaped(l); }
    if ScanValue(l).Some? { ValueShaped(l); }
  }

  predicate StackShaped(stack: seq<(string, string)>) { forall i :: 0 <= i < |stack| ==> DottedName(stack[i].1) }

  predicate ContainerShaped(c: string) { (forall i :: 0 <= i < |c| ==> IsDotted(c[i])) || HasPrefix(c, "enum ") }

  ghost predicate InRange(out: Schema) {
    forall c, num :: c in out && num in out[c] ==>
      ContainerShaped(c) && WordName(out[c][num].0) && TypeShaped(out[c][num].1)
  }

  lemma {:induction false} OwnersDotted(stack: seq<(string, string)>)
    requires StackShaped(stack)
    ensures forall i :: 0 <= i < |Owners(stack)| ==> DottedName(Owners(stack)[i])
  {
    if stack != [] { OwnersDotted(stack[..|stack| - 1]); }
  }

  lemma {:induction false} JoinDotted(parts: seq<string>)
    requires forall i :: 0 <= i < |parts| ==> DottedName(parts[i])
    ensures forall i :: 0 <= i < |Join(parts, '.')| ==> IsDotted(Join(parts, '.')[i])
  {
    if |parts| > 1 { JoinDotted(parts[1..]); }
  }

  lemma PutInRange(out: Schema, c: string, num: int, entry: (string, string))
    requires InRange(out) && ContainerShaped(c) && WordName(entry.0) && TypeShaped(entry.1)
    ensures InRange(Put(out, c, num, entry))
  {
    hide ContainerShaped, WordName, TypeShaped;
  }

  lemma LineInRange(p: Parser, l: Line)
    requires InRange(p.out) && StackShaped(p.stack) && LineShaped(l)
    ensures InRange(ParseLine(p, l).out) && StackShaped(ParseLine(p, l).stack)
  {
    if l.block.None? && p.stack != [] {
      var c := Join(Owners(p.stack), '.');
      OwnersDotted(p.stack);
      JoinDotted(Owners(p.stack));
      assert HasPrefix("enum " + c, "enum ") by { assert ("enum " + c)[..5] == "enum "; }
      assert TypeShaped("enum");
      if l.field.Some? { PutInRange(p.out, c, l.field.value.1, (l.field.value.0.name, l.field.value.0.typ)); }
      if l.value.Some? { PutInRange(p.out, "enum " + c, l.value.value.1, (l.value.value.0, "enum")); }
    }
    hide InRange, Owners, Put, DottedName, FieldShaped, WordName;
  }

  lemma {:induction false} ParseInRange(raws: seq<string>)
    requires AllOneLine(raws)
    ensures var p := ParseLines(Parser(map[], []), Lines(raws)); InRange(p.out) && StackShaped(p.stack)
  {
    hide LineOf, ParseLine, OneLine, LineShaped;
    if raws != [] {
      var rest, raw := raws[..|raws| - 1], raws[|raws| - 1];
      assert raws == rest + [raw];
      ParseInRange(rest);
      LineIsShaped(raw);
      SnocLines(rest, raw);
      ParseSnoc(Parser(map[], []), Lines(rest), LineOf(raw));
      LineInRange(ParseLines(Parser(map[], []), Lines(rest)), LineOf(raw));
    } else {
      assert Lines([]) == [];
    }
  }

  lemma {:induction false} SplitOneLine(s: string)
    ensures AllOneLine(SplitLines(s))
    decreases |s|
  {
    var n := RunLength(s, NotBreak);
    if n < |s| {
      SplitOneLine(s[n + 1..]);
    }
  }

  lemma TextInRange(text: string)
    ensures InRange(ParseText(text))
  {
    SplitOneLine(text);
    ParseInRange(SplitLines(text));
  }

  lemma {:induction false} CamelHasNoSpace(s: string, capitalize: bool)
    ensures forall i :: 0 <= i < |CamelFrom(s, capitalize)| ==> CamelFrom(s, capitalize)[i] != ' '
  {
    if s != "" { CamelHasNoSpace(s[1..], s[0] in {'_', '-', ' '}); }
  }

  lemma MessageNameDotted(category: string)
    requires ContainerShaped(MessageName(category))
    ensures DottedName(MessageName(category))
  {
    CamelHasNoSpace(category, true);
    var name := MessageName(category);
    assert forall i :: 0 <= i < |name| ==> name[i] != ' ';
    if |name| >= 5 { assert name[..5][4] == name[4] && "enum "[4] == ' '; }
  }

  lemma EntriesShaped(out: Schema, c: string, fields: seq<Field>)
    requires InRange(out) && c in out && out[c] == Numbered(fields)
    ensures AllShaped(fields) && (fields != [] ==> ContainerShaped(c))
  {
    hide ContainerShaped, WordName, TypeShaped;
    forall i | 0 <= i < |fields|
      ensures FieldShaped(fields[i]) && ContainerShaped(c)
    {
      assert i + 1 in out[c] && out[c][i + 1] == EntryAt(fields, i + 1);
    }
    if fields != [] { assert FieldShaped(fields[0]); }
  }

  /** The round trip holds exactly for names and types the expressions can find: field names that
      are words, types that are dotted names or map types without comment marks, message names
      that are dotted names. (Every category has a field, and no type contains a brace.) */
  lemma RoundTripIffShaped(s: ProtoSchema.Spec)
    requires DistinctMessages(s.categories) && Braceless(s)
    requires forall i :: 0 <= i < |s.categories| ==> FieldsOf(s.categories[i].metrics) != []
    ensures ParseText(PrintedText(s)) == SchemaOf(s) <==> Shaped(s)
  {
    hide Braceless, PrintedText, ParseText, InRange, AllShaped, SchemaOf, MessageName, FieldsOf, StatsFields,
         DottedName, ContainerShaped;
    if Shaped(s) { ParseUndoesPrint(s); }
    if ParseText(PrintedText(s)) == SchemaOf(s) {
      TextInRange(PrintedText(s));
      SchemaAt(s);
      EntriesShaped(SchemaOf(s), "Stats", StatsFields(s));
      forall i | 0 <= i < |s.categories|
        ensures DottedName(MessageName(s.categories[i].name)) && AllShaped(FieldsOf(s.categories[i].metrics))
      {
        var c := s.categories[i];
        EntriesShaped(SchemaOf(s), MessageName(c.name), FieldsOf(c.metrics));
        MessageNameDotted(c.name);
      }
    }
  }

  // ---- The printer ----------------------------------------------------------

  lemma UnlinesDecl(ds: seq<Decl>, d: Decl, first: nat)
    ensures Unlines(DeclTexts(ds + [d], first)) == Unlines(DeclTexts(ds, first)) + DeclText(d, first + |ds|) + "\n"
  {
    DeclsSnoc(ds, d, first);
    var raws, raw := DeclTexts(ds, first), DeclText(d, first + |ds|);
    hide *;
    UnlinesSnoc(raws, raw);
  }

  lemma UnlinesSnoc(raws: seq<string>, raw: string)
    ensures Unlines(raws + [raw]) == Unlines(raws) + raw + "\n"
  {
    assert (raws + [raw])[..|raws|] == raws;
  }

  /** One more field line on the text. */
  method PrintField(result: string, d: Decl, fieldNo: nat, ghost ds: seq<Decl>, ghost first: nat) returns (r: string)
    requires result == Unlines(DeclTexts(ds, first)) && fieldNo == first + |ds|
    ensures r == Unlines(DeclTexts(ds + [d], first))
  {
    hide Unlines, DeclTexts, Decimal;
    UnlinesDecl(ds, d, first);
    var line := "    " + (d.prefix + (d.field.typ + (" " + (d.field.name + (" = " + (Decimal(fieldNo) + ";"))))));
    r := result + line + "\n";
  }

  /** The body of one category's message: the running field number is one past the last. */
  method PrintMetrics(metrics: seq<Metric>) returns (r: Option<string>)
    ensures r.Some? <==> forall j :: 0 <= j < |metrics| ==> Printable(metrics[j])
    ensures r.Some? ==> r.value == Unlines(DeclTexts(DeclsOf(metrics), 1))
  {
    hide Unlines, DeclText;
    var result := "";
    var fieldNo := 1;
    NoDecls(1);
    for i := 0 to |metrics|
      invariant forall j :: 0 <= j < i ==> Printable(metrics[j])
      invariant fieldNo == |DeclsOf(metrics[..i])| + 1 && result == Unlines(DeclTexts(DeclsOf(metrics[..i]), 1))
    {
      assert metrics[..i + 1][..i] == metrics[..i];
      var m := metrics[i];
      ghost var done := DeclsOf(metrics[..i]);
      if m.expanded.Some? {
        var fields := m.expanded.value;
        assert done + Plain(fields[..0]) == done;
        for k := 0 to |fields|
          invariant fieldNo == |done| + k + 1 && result == Unlines(DeclTexts(done + Plain(fields[..k]), 1))
        {
          assert done + Plain(fields[..k + 1]) == done + Plain(fields[..k]) + [Decl("", fields[k])];
          result := PrintField(result, Decl("", fields[k]), fieldNo, done + Plain(fields[..k]), 1);
          fieldNo := fieldNo + 1;
        }
        assert fields[..|fields|] == fields;
      } else {
        var d;
        if m.presence {
          if m.repeated {
            if m.typ != "string" { return None; }
            d := Decl("", Field(m.name, "StringList"));
          } else {
            d := Decl("optional ", Field(m.name, m.typ));
          }
        } else {
          d := Decl(if m.repeated then "repeated " else "", Field(m.name, m.typ));
        }
        result := PrintField(result, d, fieldNo, done, 1);
        fieldNo := fieldNo + 1;
      }
    }
    assert metrics[..|metrics|] == metrics;
    return Some(result);
  }

  lemma NoDecls(first: nat)
    ensures Unlines(DeclTexts([], first)) == "" && DeclTexts([], first) == []
  {
  }

  /** The categories before common_name. */
  method PrintLeading(s: ProtoSchema.Spec) returns (result: string, fieldNo: nat)
    ensures result == Unlines(DeclTexts(Plain(Leading(s, s.categories)), 1))
    ensures fieldNo == |Leading(s, s.categories)| + 1
  {
    hide Unlines, DeclText;
    result, fieldNo := "", 1;
    NoDecls(1);
    assert Plain([]) == [];
    for i := 0 to |s.categories|
      invariant fieldNo == |Leading(s, s.categories[..i])| + 1
      invariant result == Unlines(DeclTexts(Plain(Leading(s, s.categories[..i])), 1))
    {
      assert s.categories[..i + 1][..i] == s.categories[..i];
      var name := s.categories[i].name;
      ghost var lead := Leading(s, s.categories[..i]);
      if !(name in s.nested || name in s.appended) {
        assert Plain(lead + [CategoryField(name)]) == Plain(lead) + [Decl("", CategoryField(name))];
        result := PrintField(result, Decl("", CategoryField(name)), fieldNo, Plain(lead), 1);
        fieldNo := fieldNo + 1;
      } else {
        assert Leading(s, s.categories[..i + 1]) == lead;
      }
    }
    assert s.categories[..|s.categories|] == s.categories;
  }

  /** The appended categories, refused when one is unknown. */
  method PrintTrailing(s: ProtoSchema.Spec, first: nat) returns (r: Option<string>)
    ensures r.Some? <==> forall i :: 0 <= i < |s.appended| ==> Declares(s.categories, s.appended[i])
    ensures r.Some? ==> r.value == Unlines(DeclTexts(Plain(Trailing(s.appended)), first))
  {
    hide Unlines, DeclText;
    var result, fieldNo := "", first;
    NoDecls(first);
    assert Plain(Trailing([])) == [];
    for i := 0 to |s.appended|
      invariant forall k :: 0 <= k < i ==> Declares(s.categories, s.appended[k])
      invariant fieldNo == first + i && result == Unlines(DeclTexts(Plain(Trailing(s.appended[..i])), first))
    {
      var name := s.appended[i];
      if !Declares(s.categories, name) { return None; }
      assert Plain(Trailing(s.appended[..i + 1])) == Plain(Trailing(s.appended[..i])) + [Decl("", CategoryField(name))];
      result := PrintField(result, Decl("", CategoryField(name)), fieldNo, Plain(Trailing(s.appended[..i])), first);
      fieldNo := fieldNo + 1;
    }
    assert s.appended[..|s.appended|] == s.appended;
    return Some(result);
  }

  method PrintStats(s: ProtoSchema.Spec) returns (r: Option<string>)
    ensures r.Some? <==> forall i :: 0 <= i < |s.appended| ==> Declares(s.categories, s.appended[i])
    ensures r.Some? ==> r.value == Unlines(MessageText("Stats", StatsBody(s)))
  {
    hide Unlines, DeclTexts, Plain, Leading, Comment;
    var result, fieldNo := PrintLeading(s);
    NoDecls(fieldNo);
    NoDecls(fieldNo + 1);
    var common := PrintField("", Decl("", COMMON_NAME), fieldNo, [], fieldNo);
    var dp := PrintField("", Decl("", DP_TYPE), fieldNo + 1, [], fieldNo + 1);
    OnePlain(COMMON_NAME);
    OnePlain(DP_TYPE);
    assert [] + [Decl("", COMMON_NAME)] == [Decl("", COMMON_NAME)] && [] + [Decl("", DP_TYPE)] == [Decl("", DP_TYPE)];
    var trail := PrintTrailing(s, fieldNo + 2);
    if trail.None? { return None; }
    UnlinesBody(DeclTexts(Plain(Leading(s, s.categories)), 1), NODE_COMMENT, DeclTexts(Plain([COMMON_NAME]), fieldNo),
                TYPE_COMMENT,
                DeclTexts(Plain([DP_TYPE]), fieldNo + 1), DeclTexts(Plain(Trailing(s.appended)), fieldNo + 2));
    var body := result + Unlines(NODE_COMMENT) + common + Unlines(TYPE_COMMENT) + dp + trail.value;
    UnlinesMessage("Stats", StatsBody(s));
    return Some("message Stats {\n" + body + "}\n\n");
  }

  lemma OnePlain(f: Field)
    ensures Plain([f]) == [Decl("", f)]
  {
  }

  lemma UnlinesBody(a: seq<string>, b: seq<string>, c: seq<string>, d: seq<string>, e: seq<string>, f: seq<string>)
    ensures Unlines(a + b + c + d + e + f) == Unlines(a) + Unlines(b) + Unlines(c) + Unlines(d) + Unlines(e)
            + Unlines(f)
  {
    hide *;
    UnlinesAppend(a + b + c + d + e, f);
    UnlinesAppend(a + b + c + d, e);
    UnlinesAppend(a + b + c, d);
    UnlinesAppend(a + b, c);
    UnlinesAppend(a, b);
  }

  lemma UnlinesMessage(name: string, body: seq<string>)
    ensures Unlines(MessageText(name, body)) == "message " + name + " {\n" + Unlines(body) + "}\n\n"
  {
    var open := "message " + (name + " {");
    UnlinesSnoc([open] + body + ["}"], "");
    UnlinesSnoc([open] + body, "}");
    UnlinesCons(open, body);
    assert [open] + body + ["}", ""] == [open] + body + ["}"] + [""];
    hide Unlines;
    assert open + ("\n" + Unlines(body)) == "message " + name + " {\n" + Unlines(body);
  }

  /** process_proto_schema: the schema's text, or a refusal of exactly the invalid inputs. */
  method ProcessProtoSchema(s: ProtoSchema.Spec) returns (r: Option<string>)
    ensures r.Some? <==> Accepted(s)
    ensures r.Some? ==> r.value == PrintedText(s)
  {
    hide Unlines, DeclTexts, DeclsOf, MessageName, MessageText, HEADER, LIST_COMMENT, STATS_COMMENT, StatsBody;
    ghost var front := HEADER + LIST_COMMENT + MessageText("StringList", DeclTexts(Plain(ITEMS), 1));
    var result := Unlines(HEADER + LIST_COMMENT + MessageText("StringList", DeclTexts(Plain(ITEMS), 1)));
    assert front + CategoryTexts(s.categories[..0]) == front;
    for i := 0 to |s.categories|
      invariant result == Unlines(front + CategoryTexts(s.categories[..i]))
      invariant forall k, j :: 0 <= k < i && 0 <= j < |s.categories[k].metrics| ==>
                Printable(s.categories[k].metrics[j])
    {
      assert s.categories[..i + 1][..i] == s.categories[..i];
      var c := s.categories[i];
      var fields := PrintMetrics(c.metrics);
      if fields.None? { return None; }
      ghost var before := CategoryTexts(s.categories[..i]);
      ghost var message := MessageText(MessageName(c.name), DeclTexts(DeclsOf(c.metrics), 1));
      UnlinesMessage(MessageName(c.name), DeclTexts(DeclsOf(c.metrics), 1));
      UnlinesAppend(front + before, message);
      assert front + before + message == front + (before + message);
      result := result + ("message " + MessageName(c.name) + " {\n" + fields.value + "}\n\n");
    }
    assert s.categories[..|s.categories|] == s.categories;
    var stats := PrintStats(s);
    if stats.None? { return None; }
    ghost var before := front + CategoryTexts(s.categories);
    UnlinesAppend(before, STATS_COMMENT);
    UnlinesAppend(before + STATS_COMMENT, MessageText("Stats", StatsBody(s)));
    return Some(result + Unlines(STATS_COMMENT) + stats.value);
  }

  // ---- Growing the schema, on text ------------------------------------------

  /** The comparison of the two printed schemas reports nothing when the schema grew at its ends. */
  lemma PrintedGrowthIsSilent(s: ProtoSchema.Spec, t: ProtoSchema.Spec)
    requires GrownAtEnds(s, t) && DistinctMessages(s.categories) && DistinctMessages(t.categories)
    requires Shaped(s) && Braceless(s) && Shaped(t) && Braceless(t)
    ensures forall f :: !Found(ParseText(PrintedText(s)), ParseText(PrintedText(t)), f)
  {
    hide Found, ParseText, PrintedText, SchemaOf, GrownAtEnds;
    ParseUndoesPrint(s);
    ParseUndoesPrint(t);
    GrowthIsSilent(s, t);
  }

  /** A word and a hyphen where a name should be. */
  lemma HyphenIsNoField(typ: string, w: string, rest: string)
    requires DottedName(typ) && typ !in {"optional", "repeated"} && WordName(w)
    ensures ScanField("    " + (typ + (" " + (w + ("-" + rest))))).None?
  {
    var r := w + ("-" + rest);
    var b := typ + (" " + r);
    assert b[0] == typ[0];
    SkipOne(b);
    RunSplits(typ, " " + r, IsDotted);
    TakeTypePrinted(typ, " " + r);
    HyphenEndsName(w, rest);
    hide Run, Skip, TakeType, TakeName, TakeNumber, DottedName, WordName, ScanField;
    FieldByWord("    " + b, b, typ, " " + r);
  }

  lemma HyphenEndsName(w: string, rest: string)
    requires WordName(w)
    ensures TakeName(" " + (w + ("-" + rest))) == Some((w, "-" + rest)) && TakeNumber("-" + rest).None?
  {
    var r := w + ("-" + rest);
    assert r[0] == w[0];
    RunSplits(" ", r, IsSpace);
    RunSplits(w, "-" + rest, IsWord);
    NoEquals("-" + rest);
    hide Run, TakeEquals, TakeDigits;
  }

  lemma FooBarIsNamed()
    ensures MessageName("foo-bar") == "FooBarStat"
  {
    CamelWords("foo", '-', "bar", true);
    CamelWord("foo", true);
    CamelWord("bar", true);
    hide CamelFrom;
    assert "foo-bar" == "foo" + ['-'] + "bar";
    assert "foo"[1..] == "oo" && "bar"[1..] == "ar" && Upper('f') == 'F' && Upper('b') == 'B';
  }

  /** The printer accepts a category "foo-bar", but its field in Stats is not found again: its
      number is lost to the comparison. */
  lemma HyphenLosesItsNumber(num: nat)
    ensures LineOf(DeclText(Decl("", CategoryField("foo-bar")), num)).field.None?
  {
    var tail, line := NameText("foo-bar", num), DeclText(Decl("", CategoryField("foo-bar")), num);
    HyphenText(num);
    HyphenTame(num);
    FooBarIsTame();
    hide Tame, DeclText, NameText, NumberText, Uncomment, ScanField, ScanBlock, ScanValue, Count, NoSlashes, OneLine,
         BraceFree, DottedName, WordName;
    TameAround("    ", "FooBarStat", tail);
    UncommentClean(line);
    HyphenIsNoField("FooBarStat", "foo", "bar" + NumberText(num));
  }

  lemma FooBarIsTame()
    ensures NoSlashes("FooBarStat") && OneLine("FooBarStat") && BraceFree("FooBarStat")
    ensures DottedName("FooBarStat") && WordName("foo") && "FooBarStat" !in {"optional", "repeated"}
  {
  }

  lemma HyphenText(num: nat)
    ensures DeclText(Decl("", CategoryField("foo-bar")), num) == "    " + ("FooBarStat" + NameText("foo-bar", num))
    ensures NameText("foo-bar", num) == " " + ("foo" + ("-" + ("bar" + NumberText(num))))
  {
    FooBarIsNamed();
    hide MessageName, NumberText;
  }

  lemma HyphenTame(num: nat)
    ensures Tame(NameText("foo-bar", num)) && Tame("    ")
  {
    DecimalValue(num);
    hide Decimal;
    assert Tame(Decimal(num));
  }
}
