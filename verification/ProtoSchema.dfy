// Wire numbering: how the printer numbers the statistics schema (script/metrics.py), and the
// checker that compares two schemas (script/check_proto_compat.py). Lines are taken here as
// what the checker's expressions find on them; ProtoText has their characters.

module ProtoSchema {
  import opened Text

  /** number -> (name, type) */
  type Numbers = map<int, (string, string)>

  type Schema = map<string, Numbers>

  // ---- Comparing ------------------------------------------------------------

  datatype Finding =
    | Retyped(container: string, num: int)
    | Moved(container: string, num: int)
    | Renumbered(container: string, num: int)
    | Renamed(container: string, num: int)
    | Removed(container: string, num: int)
    | ContainerRemoved(container: string)

  predicate HasName(n: Numbers, name: string) { exists num :: num in n && n[num].0 == name }

  /** What becomes of one old number. */
  function Verdict(container: string, num: int, base: (string, string), next: Numbers): Option<Finding> {
    if num in next then
      if next[num].1 != base.1 then Some(Retyped(container, num))
      else if next[num].0 == base.0 then None
      else if HasName(next, base.0) then Some(Moved(container, num))
      else Some(Renamed(container, num))
    else if HasName(next, base.0) then Some(Renumbered(container, num))
    else Some(Removed(container, num))
  }

  predicate IsErrorKind(f: Finding) { f.Retyped? || f.Moved? || f.Renumbered? }

  ghost predicate Found(base: Schema, next: Schema, f: Finding) {
    && f.container in base
    && if f.ContainerRemoved? then f.container !in next
       else f.container in next && f.num in base[f.container]
            && Verdict(f.container, f.num, base[f.container][f.num], next[f.container]) == Some(f)
  }

  /** compare: all findings, errors and warnings apart. */
  method Compare(base: Schema, next: Schema) returns (errors: seq<Finding>, warns: seq<Finding>)
    ensures forall f :: f in errors <==> Found(base, next, f) && IsErrorKind(f)
    ensures forall f :: f in warns <==> Found(base, next, f) && !IsErrorKind(f)
  {
    errors, warns := [], [];
    var containers := base.Keys;
    while containers != {}
      invariant containers <= base.Keys
      invariant forall f :: f in errors <==> Found(base, next, f) && f.container !in containers && IsErrorKind(f)
      invariant forall f :: f in warns <==> Found(base, next, f) && f.container !in containers && !IsErrorKind(f)
    {
      var c :| c in containers;
      containers := containers - {c};
      if c !in next {
        warns := warns + [ContainerRemoved(c)];
      } else {
        var e, w := CompareContainer(c, base[c], next[c]);
        errors, warns := errors + e, warns + w;
      }
    }
  }

  method CompareContainer(c: string, base: Numbers, next: Numbers) returns (errors: seq<Finding>, warns: seq<Finding>)
    ensures forall f :: f in errors <==> !f.ContainerRemoved? && f.container == c && f.num in base
                                         && Verdict(c, f.num, base[f.num], next) == Some(f) && IsErrorKind(f)
    ensures forall f :: f in warns <==> !f.ContainerRemoved? && f.container == c && f.num in base
                                        && Verdict(c, f.num, base[f.num], next) == Some(f) && !IsErrorKind(f)
  {
    var names := set num | num in next :: next[num].0;
    errors, warns := [], [];
    var todo := base.Items;
    while todo != {}
      invariant todo <= base.Items
      invariant forall f :: f in errors <==> !f.ContainerRemoved? && f.container == c && f.num in base
                                             && (f.num, base[f.num]) !in todo
                                             && Verdict(c, f.num, base[f.num], next) == Some(f) && IsErrorKind(f)
      invariant forall f :: f in warns <==> !f.ContainerRemoved? && f.container == c && f.num in base
                                            && (f.num, base[f.num]) !in todo
                                            && Verdict(c, f.num, base[f.num], next) == Some(f) && !IsErrorKind(f)
    {
      var item :| item in todo;
      todo := todo - {item};
      var (num, (name, typ)) := item;
      if num in next {
        var (nname, ntyp) := next[num];
        if ntyp != typ {
          errors := errors + [Retyped(c, num)];
        } else if nname != name {
          if name in names { errors := errors + [Moved(c, num)]; } else { warns := warns + [Renamed(c, num)]; }
        }
      } else if name in names {
        errors := errors + [Renumbered(c, num)];
      } else {
        warns := warns + [Removed(c, num)];
      }
    }
  }

  /** Every surviving number keeps its type and every surviving name its number. */
  ghost predicate Compatible(base: Schema, next: Schema) {
    forall c, num :: c in base && c in next && num in base[c] ==>
      && (num in next[c] ==> next[c][num].1 == base[c][num].1)
      && (HasName(next[c], base[c][num].0) ==> num in next[c] && next[c][num].0 == base[c][num].0)
  }

  ghost predicate Extends(base: Schema, next: Schema) {
    && (forall c :: c in base ==> c in next)
    && (forall c, num :: c in base && num in base[c] ==> num in next[c] && next[c][num] == base[c][num])
  }

  /** No error exactly when every surviving number keeps its type and name its number. */
  lemma NoErrorIffCompatible(base: Schema, next: Schema)
    ensures (forall f :: Found(base, next, f) ==> !IsErrorKind(f)) <==> Compatible(base, next)
  {
    if forall f :: Found(base, next, f) ==> !IsErrorKind(f) {
      forall c, num | c in base && c in next && num in base[c]
        ensures num in next[c] ==> next[c][num].1 == base[c][num].1
        ensures HasName(next[c], base[c][num].0) ==> num in next[c] && next[c][num].0 == base[c][num].0
      {
        var v := Verdict(c, num, base[c][num], next[c]);
        assert v.Some? ==> Found(base, next, v.value);
      }
    }
  }

  /** Nothing is reported exactly when the new schema only adds. */
  lemma SilentIffExtends(base: Schema, next: Schema)
    ensures (forall f :: !Found(base, next, f)) <==> Extends(base, next)
  {
    if forall f :: !Found(base, next, f) {
      forall c | c in base ensures c in next { assert !Found(base, next, ContainerRemoved(c)); }
      forall c, num | c in base && num in base[c] ensures num in next[c] && next[c][num] == base[c][num] {
        var v := Verdict(c, num, base[c][num], next[c]);
        assert v.Some? ==> Found(base, next, v.value);
      }
    }
    if Extends(base, next) {
      forall f ensures !Found(base, next, f) {
        if f.container in base && !f.ContainerRemoved? && f.num in base[f.container] {
          assert next[f.container][f.num] == base[f.container][f.num];
        }
      }
    }
  }

  // ---- Parsing --------------------------------------------------------------

  datatype Field = Field(name: string, typ: string)

  /** What the block, field and enum expressions match on a line, and its braces. */
  datatype Line = Line(block: Option<(string, string)>, field: Option<(Field, int)>, value: Option<(string, int)>,
                       opens: nat, closes: nat)

  datatype Parser = Parser(out: Schema, stack: seq<(string, string)>)

  function Owners(stack: seq<(string, string)>): seq<string> {
    if stack == [] then []
    else Owners(stack[..|stack| - 1]) + if stack[|stack| - 1].0 != "oneof" then [stack[|stack| - 1].1] else []
  }

  function Put(out: Schema, container: string, num: int, entry: (string, string)): Schema {
    out[container := (if container in out then out[container] else map[])[num := entry]]
  }

  function Recorded(p: Parser, l: Line): Schema
    requires p.stack != []
  {
    var kind, container := p.stack[|p.stack| - 1].0, Join(Owners(p.stack), '.');
    if kind in {"message", "oneof", "extend"} then
      if l.field.Some? then Put(p.out, container, l.field.value.1, (l.field.value.0.name, l.field.value.0.typ))
        else p.out
    else if kind == "enum" then
      if l.value.Some? then Put(p.out, "enum " + container, l.value.value.1, (l.value.value.0, "enum")) else p.out
    else p.out
  }

  function ParseLine(p: Parser, l: Line): Parser {
    if l.block.Some? then
      if l.closes >= l.opens then p else p.(stack := p.stack + [l.block.value])
    else
      Parser(if p.stack == [] then p.out else Recorded(p, l),
             if l.closes >= |p.stack| then [] else p.stack[..|p.stack| - l.closes])
  }

  function ParseLines(p: Parser, lines: seq<Line>): Parser {
    if lines == [] then p else ParseLine(ParseLines(p, lines[..|lines| - 1]), lines[|lines| - 1])
  }

  // ---- Printing -------------------------------------------------------------

  /** expanded: the inner fields of a flagged struct blob, in order. */
  datatype Metric = Metric(name: string, typ: string, repeated: bool, presence: bool, expanded: Option<seq<Field>>)

  datatype Category = Category(name: string, metrics: seq<Metric>)

  datatype Spec = Spec(categories: seq<Category>, nested: set<string>, appended: seq<string>)

  function Upper(c: char): char { if IsLower(c) then (c as int - 'a' as int + 'A' as int) as char else c }

  function CamelFrom(s: string, capitalize: bool): string {
    if s == "" then ""
    else if s[0] in {'_', '-', ' '} then CamelFrom(s[1..], true)
    else [if capitalize then Upper(s[0]) else s[0]] + CamelFrom(s[1..], false)
  }

  function MessageName(category: string): string { CamelFrom(category, true) + "Stat" }

  predicate Printable(m: Metric) { m.expanded.None? && m.presence && m.repeated ==> m.typ == "string" }

  function MetricFields(m: Metric): seq<Field> {
    match m.expanded
    case Some(fields) => fields
    case None => [Field(m.name, if m.presence && m.repeated then "StringList" else m.typ)]
  }

  function FieldsOf(metrics: seq<Metric>): seq<Field> {
    if metrics == [] then [] else FieldsOf(metrics[..|metrics| - 1]) + MetricFields(metrics[|metrics| - 1])
  }

  function CategoryField(name: string): Field { Field(name, MessageName(name)) }

  /** The categories numbered before common_name. */
  function Leading(s: Spec, categories: seq<Category>): seq<Field> {
    if categories == [] then []
    else
      var name := categories[|categories| - 1].name;
      Leading(s, categories[..|categories| - 1])
      + if name in s.nested || name in s.appended then [] else [CategoryField(name)]
  }

  function Trailing(appended: seq<string>): seq<Field> {
    seq(|appended|, i requires 0 <= i < |appended| => CategoryField(appended[i]))
  }

  function StatsFields(s: Spec): seq<Field> {
    Leading(s, s.categories) + [Field("common_name", "string"), Field("dp_type", "string")] + Trailing(s.appended)
  }

  /** Fields are numbered from one, in order. */
  function Numbered(fields: seq<Field>): Numbers {
    map n | 1 <= n <= |fields| :: EntryAt(fields, n)
  }

  function EntryAt(fields: seq<Field>, n: int): (string, string)
    requires 1 <= n <= |fields|
  {
    (fields[n - 1].name, fields[n - 1].typ)
  }

  function OpenLine(name: string): Line { Line(Some(("message", name)), None, None, 1, 0) }

  function FieldLine(f: Field, num: int): Line { Line(None, Some((f, num)), None, 0, 0) }

  const CLOSE_LINE := Line(None, None, None, 0, 1)

  function FieldLines(fields: seq<Field>): seq<Line> {
    seq(|fields|, i requires 0 <= i < |fields| => FieldLine(fields[i], i + 1))
  }

  function Message(name: string, fields: seq<Field>): seq<Line> { [OpenLine(name)] + FieldLines(fields) + [CLOSE_LINE] }

  function Messages(categories: seq<Category>): seq<Line> {
    if categories == [] then []
    else
      var c := categories[|categories| - 1];
      Messages(categories[..|categories| - 1]) + Message(MessageName(c.name), FieldsOf(c.metrics))
  }

  function Printed(s: Spec): seq<Line> {
    Message("StringList", [Field("items", "string")]) + Messages(s.categories) + Message("Stats", StatsFields(s))
  }

  predicate Accepted(s: Spec) {
    && (forall i, j :: 0 <= i < |s.categories| && 0 <= j < |s.categories[i].metrics| ==>
          Printable(s.categories[i].metrics[j]))
    && (forall i :: 0 <= i < |s.appended| ==> Declares(s.categories, s.appended[i]))
  }

  predicate Declares(categories: seq<Category>, name: string) {
    exists j :: 0 <= j < |categories| && categories[j].name == name
  }

  lemma FieldLinesSnoc(fields: seq<Field>, f: Field)
    ensures FieldLines(fields + [f]) == FieldLines(fields) + [FieldLine(f, |fields| + 1)]
  {
  }

  // ---- Parsing undoes printing ----------------------------------------------

  /** A message without fields leaves no trace. */
  function With(out: Schema, name: string, fields: seq<Field>): Schema {
    if fields == [] then out else out[name := Numbered(fields)]
  }

  function CategorySchema(out: Schema, categories: seq<Category>): Schema {
    if categories == [] then out
    else
      var c := categories[|categories| - 1];
      With(CategorySchema(out, categories[..|categories| - 1]), MessageName(c.name), FieldsOf(c.metrics))
  }

  /** The numbering the printer assigns. */
  function SchemaOf(s: Spec): Schema {
    With(CategorySchema(map["StringList" := Numbered([Field("items", "string")])], s.categories), "Stats",
         StatsFields(s))
  }

  predicate DistinctMessages(categories: seq<Category>) {
    forall i, j :: 0 <= i < j < |categories| ==> MessageName(categories[i].name) != MessageName(categories[j].name)
  }

  lemma {:induction false} ParseAppend(p: Parser, a: seq<Line>, b: seq<Line>)
    ensures ParseLines(p, a + b) == ParseLines(ParseLines(p, a), b)
  {
    if b == [] {
      assert a + b == a;
    } else {
      ParseAppend(p, a, b[..|b| - 1]);
      assert (a + b)[..|a + b| - 1] == a + b[..|b| - 1];
    }
  }

  lemma {:induction false} ParseFields(out: Schema, name: string, fields: seq<Field>)
    requires name !in out
    ensures ParseLines(Parser(out, [("message", name)]), FieldLines(fields))
            == Parser(With(out, name, fields), [("message", name)])
  {
    if fields != [] {
      var rest, f := fields[..|fields| - 1], fields[|fields| - 1];
      hide ParseLine, Numbered, FieldLines;
      ParseFields(out, name, rest);
      FieldLinesSnoc(rest, f);
      assert rest + [f] == fields;
      ParseAppend(Parser(out, [("message", name)]), FieldLines(rest), [FieldLine(f, |fields|)]);
      ParseOne(Parser(With(out, name, rest), [("message", name)]), FieldLine(f, |fields|));
      ParseField(out, name, rest, f);
    } else {
      assert FieldLines(fields) == [];
    }
  }

  lemma ParseField(out: Schema, name: string, rest: seq<Field>, f: Field)
    requires name !in out
    ensures ParseLine(Parser(With(out, name, rest), [("message", name)]), FieldLine(f, |rest| + 1))
            == Parser(With(out, name, rest + [f]), [("message", name)])
  {
    OwnersOfOne("message", name);
    assert Numbered(rest + [f]) == (if rest == [] then map[] else Numbered(rest))[|rest| + 1 := (f.name, f.typ)];
  }

  lemma OwnersOfOne(kind: string, name: string)
    requires kind != "oneof"
    ensures Join(Owners([(kind, name)]), '.') == name
  {
    assert Owners([(kind, name)]) == [name];
  }

  lemma ParseMessage(out: Schema, name: string, fields: seq<Field>)
    requires name !in out
    ensures ParseLines(Parser(out, []), Message(name, fields)) == Parser(With(out, name, fields), [])
  {
    hide ParseLines, With, FieldLines;
    var inside := [("message", name)];
    ParseAppend(Parser(out, []), [OpenLine(name)] + FieldLines(fields), [CLOSE_LINE]);
    ParseAppend(Parser(out, []), [OpenLine(name)], FieldLines(fields));
    ParseOne(Parser(out, []), OpenLine(name));
    assert ParseLine(Parser(out, []), OpenLine(name)) == Parser(out, inside);
    ParseFields(out, name, fields);
    ParseOne(Parser(With(out, name, fields), inside), CLOSE_LINE);
    assert ParseLine(Parser(With(out, name, fields), inside), CLOSE_LINE) == Parser(With(out, name, fields), []);
  }

  lemma ParseOne(p: Parser, l: Line)
    ensures ParseLines(p, [l]) == ParseLine(p, l)
  {
    assert [l][..0] == [];
  }

  /** Message names of categories end in "Stat", so they are none of the fixed ones. */
  lemma MessageNameIsNotFixed(category: string)
    ensures MessageName(category) !in {"StringList", "Stats", "string"}
  {
    var name := MessageName(category);
    assert name[|name| - 4..] == "Stat";
    assert "StringList"[6..] == "List" && "Stats"[1..] == "tats" && "string"[2..] == "ring";
  }

  lemma {:induction false} ParseMessages(out: Schema, categories: seq<Category>)
    requires DistinctMessages(categories)
    requires forall i :: 0 <= i < |categories| ==> MessageName(categories[i].name) !in out
    ensures ParseLines(Parser(out, []), Messages(categories)) == Parser(CategorySchema(out, categories), [])
    ensures CategorySchema(out, categories).Keys <= out.Keys
            + (set i | 0 <= i < |categories| :: MessageName(categories[i].name))
  {
    if categories != [] {
      hide ParseLines, Message, MessageName, FieldsOf;
      var rest, c := categories[..|categories| - 1], categories[|categories| - 1];
      ParseMessages(out, rest);
      var last := MessageName(c.name);
      assert forall i :: 0 <= i < |rest| ==> MessageName(rest[i].name) != last;
      ParseAppend(Parser(out, []), Messages(rest), Message(MessageName(c.name), FieldsOf(c.metrics)));
      ParseMessage(CategorySchema(out, rest), MessageName(c.name), FieldsOf(c.metrics));
    }
  }

  /** Parsing the printed schema recovers exactly the numbering the printer assigned. */
  lemma ParseUndoesNumbering(s: Spec)
    requires DistinctMessages(s.categories)
    ensures ParseLines(Parser(map[], []), Printed(s)) == Parser(SchemaOf(s), [])
  {
    hide ParseLines, Message, Messages, StatsFields, CategorySchema, MessageName, Numbered;
    var items := [Field("items", "string")];
    var head, body, stats := Message("StringList", items), Messages(s.categories), Message("Stats", StatsFields(s));
    ParseAppend(Parser(map[], []), head + body, stats);
    ParseAppend(Parser(map[], []), head, body);
    ParseMessage(map[], "StringList", items);
    var out: Schema := With(map[], "StringList", items);
    forall i | 0 <= i < |s.categories| ensures MessageName(s.categories[i].name) !in {"StringList", "Stats"} {
      MessageNameIsNotFixed(s.categories[i].name);
    }
    ParseMessages(out, s.categories);
    ParseMessage(CategorySchema(out, s.categories), "Stats", StatsFields(s));
  }

  // ---- Nested blocks --------------------------------------------------------

  /** What a schema file declares: blocks in blocks, fields and enum values. */
  datatype Item =
    | FieldItem(field: Field, num: int)
    | ValueItem(name: string, num: int)
    | Block(kind: string, name: string, body: seq<Item>)

  /** Written one declaration a line. */
  function Written(items: seq<Item>): seq<Line>
    decreases items
  {
    if items == [] then [] else Written(items[..|items| - 1]) + WrittenItem(items[|items| - 1])
  }

  function WrittenItem(item: Item): seq<Line>
    decreases item
  {
    match item
    case FieldItem(f, num) => [FieldLine(f, num)]
    case ValueItem(name, num) => [Line(None, None, Some((name, num)), 0, 0)]
    case Block(kind, name, body) => [Line(Some((kind, name)), None, None, 1, 0)] + Written(body) + [CLOSE_LINE]
  }

  /** What it means: a field belongs to the innermost block that is not a oneof, named by its
      path; a value to its enum; one directly in any other block to nothing. */
  function Meaning(out: Schema, kind: string, path: seq<string>, items: seq<Item>): Schema
    decreases items
  {
    if items == [] then out
    else ItemMeaning(Meaning(out, kind, path, items[..|items| - 1]), kind, path, items[|items| - 1])
  }

  function ItemMeaning(out: Schema, kind: string, path: seq<string>, item: Item): Schema
    decreases item
  {
    match item
    case FieldItem(f, num) =>
      if kind in {"message", "oneof", "extend"} then Put(out, Join(path, '.'), num, (f.name, f.typ)) else out
    case ValueItem(name, num) =>
      if kind == "enum" then Put(out, "enum " + Join(path, '.'), num, (name, "enum")) else out
    case Block(k, name, body) => Meaning(out, k, if k == "oneof" then path else path + [name], body)
  }

  function KindOf(stack: seq<(string, string)>): string { if stack == [] then "" else stack[|stack| - 1].0 }

  /** The line parser computes that meaning, at any depth. */
  lemma {:induction false} ParseNested(out: Schema, stack: seq<(string, string)>, items: seq<Item>)
    ensures ParseLines(Parser(out, stack), Written(items))
            == Parser(Meaning(out, KindOf(stack), Owners(stack), items), stack)
    decreases items
  {
    if items != [] {
      var rest, item := items[..|items| - 1], items[|items| - 1];
      ParseNested(out, stack, rest);
      ParseItem(Meaning(out, KindOf(stack), Owners(stack), rest), stack, item);
      hide ParseLines, ItemMeaning, Owners, KindOf, WrittenItem;
      ParseAppend(Parser(out, stack), Written(rest), WrittenItem(item));
    }
  }

  lemma {:induction false} ParseItem(out: Schema, stack: seq<(string, string)>, item: Item)
    ensures ParseLines(Parser(out, stack), WrittenItem(item))
            == Parser(ItemMeaning(out, KindOf(stack), Owners(stack), item), stack)
    decreases item
  {
    if item.Block? {
      var inside := stack + [(item.kind, item.name)];
      ParseNested(out, inside, item.body);
      InsideOf(stack, (item.kind, item.name));
      hide ParseLines, Meaning, Owners, Written;
      BlockParsed(Parser(out, stack), item.kind, item.name, Written(item.body),
                  Meaning(out, item.kind, Owners(inside), item.body));
    } else {
      LeafParsed(out, stack, item);
    }
  }

  lemma InsideOf(stack: seq<(string, string)>, block: (string, string))
    ensures KindOf(stack + [block]) == block.0
    ensures Owners(stack + [block]) == if block.0 == "oneof" then Owners(stack) else Owners(stack) + [block.1]
  {
    assert (stack + [block])[..|stack|] == stack;
  }

  lemma LeafParsed(out: Schema, stack: seq<(string, string)>, item: Item)
    requires !item.Block?
    ensures ParseLines(Parser(out, stack), WrittenItem(item))
            == Parser(ItemMeaning(out, KindOf(stack), Owners(stack), item), stack)
  {
    hide ParseLines, Owners, Put;
    assert stack[..|stack|] == stack;
    ParseOne(Parser(out, stack), WrittenItem(item)[0]);
  }

  lemma CloseParsed(out: Schema, stack: seq<(string, string)>, block: (string, string))
    ensures ParseLine(Parser(out, stack + [block]), CLOSE_LINE) == Parser(out, stack)
  {
    hide Owners, Join;
    assert (stack + [block])[..|stack|] == stack;
  }

  lemma BlockParsed(p: Parser, kind: string, name: string, body: seq<Line>, out: Schema)
    requires var inside := p.stack + [(kind, name)];
             ParseLines(Parser(p.out, inside), body) == Parser(out, inside)
    ensures ParseLines(p, [Line(Some((kind, name)), None, None, 1, 0)] + body + [CLOSE_LINE]) == Parser(out, p.stack)
  {
    var inside, open := p.stack + [(kind, name)], Line(Some((kind, name)), None, None, 1, 0);
    assert ParseLine(p, open) == Parser(p.out, inside);
    CloseParsed(out, p.stack, (kind, name));
    hide *;
    ParseAppend(p, [open] + body, [CLOSE_LINE]);
    ParseAppend(p, [open], body);
    ParseOne(p, open);
    ParseOne(Parser(out, inside), CLOSE_LINE);
  }

  // ---- The numbers ----------------------------------------------------------

  predicate Holds(numbers: Numbers, n: int, name: string, typ: string) { n in numbers && numbers[n] == (name, typ) }

  predicate Leads(s: Spec, name: string) { name !in s.nested && name !in s.appended }

  /** How many of the first k categories are numbered before common_name. */
  function LeadCount(s: Spec, k: nat): nat
    requires k <= |s.categories|
  {
    if k == 0 then 0 else LeadCount(s, k - 1) + if Leads(s, s.categories[k - 1].name) then 1 else 0
  }

  lemma {:induction false} LeadingCounted(s: Spec, k: nat)
    requires k <= |s.categories|
    ensures |Leading(s, s.categories[..k])| == LeadCount(s, k)
    ensures forall i :: 0 <= i < k && Leads(s, s.categories[i].name) ==>
              LeadCount(s, i) < LeadCount(s, k)
              && Leading(s, s.categories[..k])[LeadCount(s, i)] == CategoryField(s.categories[i].name)
  {
    hide CategoryField;
    if k > 0 {
      LeadingCounted(s, k - 1);
      assert s.categories[..k][..k - 1] == s.categories[..k - 1];
    }
  }

  /** Stats numbers the leading categories from one, in order, then common_name and dp_type,
      then the appended categories, in order, and nothing else. */
  lemma StatsNumbering(s: Spec)
    requires DistinctMessages(s.categories)
    ensures var n := LeadCount(s, |s.categories|);
            && "Stats" in SchemaOf(s)
            && var stats := SchemaOf(s)["Stats"];
            && (forall k :: k in stats <==> 1 <= k <= n + 2 + |s.appended|)
            && (forall i :: 0 <= i < |s.categories| && Leads(s, s.categories[i].name) ==>
                  Holds(stats, LeadCount(s, i) + 1, s.categories[i].name, MessageName(s.categories[i].name)))
            && Holds(stats, n + 1, "common_name", "string") && Holds(stats, n + 2, "dp_type", "string")
            && (forall j :: 0 <= j < |s.appended| ==>
                  Holds(stats, n + 3 + j, s.appended[j], MessageName(s.appended[j])))
  {
    hide MessageName, SchemaOf, Leading, LeadCount;
    var n := |s.categories|;
    SchemaAt(s);
    LeadingCounted(s, n);
    assert s.categories[..n] == s.categories;
    LeadCountGrows(s, n);
  }

  lemma {:induction false} LeadCountGrows(s: Spec, k: nat)
    requires k <= |s.categories|
    ensures forall i :: 0 <= i < k && Leads(s, s.categories[i].name) ==> LeadCount(s, i) < LeadCount(s, k)
  {
    if k > 0 { LeadCountGrows(s, k - 1); }
  }

  /** How many fields the metrics before j take. */
  function Offset(metrics: seq<Metric>, j: nat): nat
    requires j <= |metrics|
  {
    if j == 0 then 0
    else Offset(metrics, j - 1) + if metrics[j - 1].expanded.Some? then |metrics[j - 1].expanded.value| else 1
  }

  lemma {:induction false} FieldsCounted(metrics: seq<Metric>, k: nat)
    requires k <= |metrics|
    ensures |FieldsOf(metrics[..k])| == Offset(metrics, k)
  {
    if k > 0 {
      FieldsCounted(metrics, k - 1);
      assert metrics[..k][..k - 1] == metrics[..k - 1];
    }
  }

  lemma {:induction false} FieldsAt(metrics: seq<Metric>, k: nat, j: nat)
    requires j < k <= |metrics|
    ensures Offset(metrics, j) + |MetricFields(metrics[j])| <= |FieldsOf(metrics[..k])| == Offset(metrics, k)
    ensures forall i :: 0 <= i < |MetricFields(metrics[j])| ==>
              FieldsOf(metrics[..k])[Offset(metrics, j) + i] == MetricFields(metrics[j])[i]
  {
    hide MetricFields;
    FieldsCounted(metrics, k);
    FieldsCounted(metrics, k - 1);
    assert metrics[..k][..k - 1] == metrics[..k - 1] && FieldsOf(metrics[..k]) == FieldsOf(metrics[..k - 1])
                                                                                 + MetricFields(metrics[k - 1]);
    hide FieldsOf, Offset;
    if j < k - 1 { FieldsAt(metrics, k - 1, j); }
  }

  /** A category's message numbers its metrics from one, in order: a plain one takes one
      number, a flagged struct one for each of its fields; a repeated text with presence is
      wrapped in a list. */
  lemma CategoryNumbering(s: Spec, i: nat, j: nat)
    requires DistinctMessages(s.categories) && i < |s.categories| && j < |s.categories[i].metrics|
    ensures var name, metrics := MessageName(s.categories[i].name), s.categories[i].metrics;
            var m, first := metrics[j], Offset(metrics, j) + 1;
            && (m.expanded.None? ==>
                  name in SchemaOf(s)
                  && Holds(SchemaOf(s)[name], first, m.name, if m.presence && m.repeated then "StringList" else m.typ))
            && (m.expanded.Some? ==>
                  forall k :: 0 <= k < |m.expanded.value| ==>
                    name in SchemaOf(s)
                    && Holds(SchemaOf(s)[name], first + k, m.expanded.value[k].name, m.expanded.value[k].typ))
            && (name in SchemaOf(s) ==>
                  forall n :: n in SchemaOf(s)[name] <==> 1 <= n <= Offset(metrics, |metrics|))
  {
    hide MessageName, SchemaOf, Leading, FieldsOf, Offset;
    var metrics := s.categories[i].metrics;
    SchemaAt(s);
    FieldsAt(metrics, |metrics|, j);
    assert metrics[..|metrics|] == metrics;
    var own := MetricFields(metrics[j]);
    if own != [] { assert FieldsOf(metrics)[Offset(metrics, j) + 0] == own[0]; }
  }

  /** A category's message is named by its words, each with its first letter raised. */
  lemma {:induction false} CamelWords(a: string, sep: char, b: string, raise: bool)
    requires sep in {'_', '-', ' '}
    ensures CamelFrom(a + [sep] + b, raise) == CamelFrom(a, raise) + CamelFrom(b, true)
    decreases |a|
  {
    var s := a + [sep] + b;
    if a == "" {
      assert s[1..] == b;
    } else {
      assert s[0] == a[0] && s[1..] == a[1..] + [sep] + b;
      CamelWords(a[1..], sep, b, a[0] in {'_', '-', ' '});
    }
  }

  lemma {:induction false} CamelWord(w: string, raise: bool)
    requires forall i :: 0 <= i < |w| ==> w[i] !in {'_', '-', ' '}
    ensures CamelFrom(w, raise) == if w == "" then "" else [if raise then Upper(w[0]) else w[0]] + w[1..]
    decreases |w|
  {
    if w != "" { CamelWord(w[1..], false); }
  }

  // ---- Growing the schema ---------------------------------------------------

  predicate Prefix(a: seq<Field>, b: seq<Field>) { |a| <= |b| && b[..|a|] == a }

  /** The schema grew the way the numbering rules allow: messages at their ends, and new
      categories only nested or appended. */
  ghost predicate GrownAtEnds(s: Spec, t: Spec) {
    && |s.categories| <= |t.categories| && |s.appended| <= |t.appended| && t.appended[..|s.appended|] == s.appended
    && (forall i :: 0 <= i < |s.categories| ==> SameCategory(s, t, i))
    && (forall i :: |s.categories| <= i < |t.categories| ==>
          t.categories[i].name in t.nested || t.categories[i].name in t.appended)
  }

  ghost predicate SameCategory(s: Spec, t: Spec, i: nat)
    requires i < |s.categories| <= |t.categories|
  {
    var c, d := s.categories[i], t.categories[i];
    && d.name == c.name && Prefix(FieldsOf(c.metrics), FieldsOf(d.metrics))
    && (c.name in s.nested || c.name in s.appended <==> c.name in t.nested || c.name in t.appended)
  }

  lemma {:induction false} LeadingStays(s: Spec, t: Spec, k: nat)
    requires GrownAtEnds(s, t) && k <= |t.categories|
    ensures var n := if k <= |s.categories| then k else |s.categories|;
            Leading(t, t.categories[..k]) == Leading(s, s.categories[..n])
  {
    if k > 0 {
      LeadingStays(s, t, k - 1);
      assert t.categories[..k][..k - 1] == t.categories[..k - 1];
      if k <= |s.categories| {
        assert s.categories[..k][..k - 1] == s.categories[..k - 1];
        assert SameCategory(s, t, k - 1);
      }
    }
  }

  lemma StatsStay(s: Spec, t: Spec)
    requires GrownAtEnds(s, t)
    ensures Prefix(StatsFields(s), StatsFields(t))
  {
    LeadingStays(s, t, |t.categories|);
    assert t.categories[..|t.categories|] == t.categories && s.categories[..|s.categories|] == s.categories;
    var n := |Leading(s, s.categories)| + 2;
    var a, b := StatsFields(s), StatsFields(t);
    forall i | 0 <= i < |a| ensures b[i] == a[i] {
      if i >= n {
        assert a[i] == CategoryField(s.appended[i - n]) && b[i] == CategoryField(t.appended[i - n]);
        assert t.appended[..|s.appended|][i - n] == t.appended[i - n];
      }
    }
    assert b[..|a|] == a;
  }

  lemma PrefixExtends(a: seq<Field>, b: seq<Field>, num: int)
    requires Prefix(a, b) && num in Numbered(a)
    ensures num in Numbered(b) && Numbered(b)[num] == Numbered(a)[num]
  {
    assert b[..|a|][num - 1] == b[num - 1];
  }

  /** The message of a category holds its fields' numbering, unless it has none. */
  lemma {:induction false} CategoryAt(out: Schema, categories: seq<Category>, i: nat)
    requires DistinctMessages(categories) && i < |categories| && FieldsOf(categories[i].metrics) != []
    ensures var name := MessageName(categories[i].name);
            name in CategorySchema(out, categories)
              && CategorySchema(out, categories)[name] == Numbered(FieldsOf(categories[i].metrics))
  {
    hide MessageName, FieldsOf;
    if i < |categories| - 1 {
      assert MessageName(categories[i].name) != MessageName(categories[|categories| - 1].name);
      CategoryAt(out, categories[..|categories| - 1], i);
    }
  }

  lemma {:induction false} CategoryOrigin(out: Schema, categories: seq<Category>, name: string)
    requires name in CategorySchema(out, categories) && name !in out
    ensures exists i ::
              0 <= i < |categories| && MessageName(categories[i].name) == name && FieldsOf(categories[i].metrics) != []
  {
    hide MessageName, FieldsOf;
    var n := |categories| - 1;
    if name in CategorySchema(out, categories[..n]) {
      CategoryOrigin(out, categories[..n], name);
      var i :| 0 <= i < n && MessageName(categories[..n][i].name) == name && FieldsOf(categories[..n][i].metrics) != [];
      assert categories[..n][i] == categories[i];
    }
  }

  lemma {:induction false} CategoryElsewhere(out: Schema, categories: seq<Category>, name: string)
    requires forall i :: 0 <= i < |categories| ==> MessageName(categories[i].name) != name
    ensures name in CategorySchema(out, categories) <==> name in out
    ensures name in out ==> CategorySchema(out, categories)[name] == out[name]
  {
    if categories != [] { CategoryElsewhere(out, categories[..|categories| - 1], name); }
  }

  /** Where each container of the numbering comes from. */
  lemma SchemaAt(s: Spec)
    requires DistinctMessages(s.categories)
    ensures SchemaOf(s).Keys <= {"StringList", "Stats"}
            + (set i | 0 <= i < |s.categories| :: MessageName(s.categories[i].name))
    ensures "Stats" in SchemaOf(s) && SchemaOf(s)["Stats"] == Numbered(StatsFields(s))
    ensures "StringList" in SchemaOf(s) && SchemaOf(s)["StringList"] == Numbered([Field("items", "string")])
    ensures forall i :: 0 <= i < |s.categories| && FieldsOf(s.categories[i].metrics) != [] ==>
              MessageName(s.categories[i].name) in SchemaOf(s)
              && SchemaOf(s)[MessageName(s.categories[i].name)] == Numbered(FieldsOf(s.categories[i].metrics))
    ensures forall i :: 0 <= i < |s.categories| && MessageName(s.categories[i].name) in SchemaOf(s) ==>
              FieldsOf(s.categories[i].metrics) != []
  {
    hide MessageName, FieldsOf, CategorySchema, Leading;
    var out := map["StringList" := Numbered([Field("items", "string")])];
    forall i | 0 <= i < |s.categories| ensures MessageName(s.categories[i].name) !in {"StringList", "Stats"} {
      MessageNameIsNotFixed(s.categories[i].name);
    }
    CategoryElsewhere(out, s.categories, "StringList");
    forall i | 0 <= i < |s.categories| && FieldsOf(s.categories[i].metrics) != []
      ensures MessageName(s.categories[i].name) in CategorySchema(out, s.categories)
      ensures CategorySchema(out, s.categories)[MessageName(s.categories[i].name)]
              == Numbered(FieldsOf(s.categories[i].metrics))
    {
      CategoryAt(out, s.categories, i);
    }
    forall name | name in CategorySchema(out, s.categories) && name !in out
      ensures exists i ::
                0 <= i < |s.categories| && MessageName(s.categories[i].name) == name
                && FieldsOf(s.categories[i].metrics) != []
    {
      CategoryOrigin(out, s.categories, name);
    }
  }

  /** Growing at the ends only adds to the numbering: the comparison reports nothing. */
  lemma GrowthIsSilent(s: Spec, t: Spec)
    requires GrownAtEnds(s, t) && DistinctMessages(t.categories)
    ensures Extends(SchemaOf(s), SchemaOf(t))
    ensures forall f :: !Found(SchemaOf(s), SchemaOf(t), f)
  {
    hide MessageName, FieldsOf, CategorySchema, Leading, SchemaOf, StatsFields, Numbered, Found;
    assert forall i :: 0 <= i < |s.categories| ==> SameCategory(s, t, i);
    forall i, j | 0 <= i < j < |s.categories|
      ensures MessageName(s.categories[i].name) != MessageName(s.categories[j].name)
    {
      assert SameCategory(s, t, i) && SameCategory(s, t, j);
    }
    SchemaAt(s);
    SchemaAt(t);
    StatsStay(s, t);
    forall c | c in SchemaOf(s) ensures c in SchemaOf(t)
      ensures forall num :: num in SchemaOf(s)[c] ==>
                num in SchemaOf(t)[c] && SchemaOf(t)[c][num] == SchemaOf(s)[c][num]
    {
      if c !in {"StringList", "Stats"} {
        var i :| 0 <= i < |s.categories| && MessageName(s.categories[i].name) == c;
        assert SameCategory(s, t, i);
        forall num | num in Numbered(FieldsOf(s.categories[i].metrics)) {
          PrefixExtends(FieldsOf(s.categories[i].metrics), FieldsOf(t.categories[i].metrics), num);
        }
      } else if c == "Stats" {
        forall num | num in Numbered(StatsFields(s)) { PrefixExtends(StatsFields(s), StatsFields(t), num); }
      }
    }
    SilentIffExtends(SchemaOf(s), SchemaOf(t));
  }

  /** The number of categories before common_name is pinned: a schema with more or fewer of them
      gives some number another type, which the comparison reports as an error. */
  lemma LeadingCountIsPinned(s: Spec, t: Spec)
    requires DistinctMessages(s.categories) && DistinctMessages(t.categories)
    requires |Leading(s, s.categories)| != |Leading(t, t.categories)|
    ensures exists f :: Found(SchemaOf(s), SchemaOf(t), f) && IsErrorKind(f)
  {
    var a, b := |Leading(s, s.categories)|, |Leading(t, t.categories)|;
    var n := (if a < b then a else b) + 1;
    SchemaAt(s);
    SchemaAt(t);
    StatsTypeAt(s, n);
    StatsTypeAt(t, n);
    hide SchemaOf, StatsFields;
    assert Found(SchemaOf(s), SchemaOf(t), Retyped("Stats", n));
  }

  lemma StatsTypeAt(s: Spec, n: nat)
    requires 1 <= n <= |Leading(s, s.categories)| + 1
    ensures n in Numbered(StatsFields(s))
    ensures Numbered(StatsFields(s))[n].1 == "string" <==> n == |Leading(s, s.categories)| + 1
  {
    LeadingAt(s, s.categories, n - 1);
    hide Leading;
    assert Numbered(StatsFields(s))[n] == EntryAt(StatsFields(s), n);
  }

  lemma {:induction false} LeadingAt(s: Spec, categories: seq<Category>, i: nat)
    ensures i < |Leading(s, categories)| ==> Leading(s, categories)[i].typ != "string"
  {
    if categories != [] {
      LeadingAt(s, categories[..|categories| - 1], i);
      MessageNameIsNotFixed(categories[|categories| - 1].name);
    }
  }

  /** So a new category that is neither nested nor appended is reported wherever it is inserted. */
  lemma InsertionIsReported(s: Spec, c: Category, i: nat)
    requires i <= |s.categories| && c.name !in s.nested && c.name !in s.appended
    requires DistinctMessages(s.categories) && DistinctMessages(s.categories[..i] + [c] + s.categories[i..])
    ensures var t := s.(categories := s.categories[..i] + [c] + s.categories[i..]);
            exists f :: Found(SchemaOf(s), SchemaOf(t), f) && IsErrorKind(f)
  {
    var front, back := s.categories[..i], s.categories[i..];
    var t := s.(categories := front + [c] + back);
    LeadingAppend(t, front + [c], back);
    LeadingAppend(t, front, [c]);
    LeadingAppend(s, front, back);
    LeadingSame(s, t, front);
    LeadingSame(s, t, back);
    assert s.categories == front + back;
    assert [c][..0] == [];
    LeadingCountIsPinned(s, t);
  }

  lemma {:induction false} LeadingAppend(s: Spec, a: seq<Category>, b: seq<Category>)
    ensures Leading(s, a + b) == Leading(s, a) + Leading(s, b)
  {
    if b == [] {
      assert a + b == a;
    } else {
      LeadingAppend(s, a, b[..|b| - 1]);
      assert (a + b)[..|a + b| - 1] == a + b[..|b| - 1];
    }
  }

  lemma {:induction false} LeadingSame(s: Spec, t: Spec, categories: seq<Category>)
    requires s.nested == t.nested && s.appended == t.appended
    ensures Leading(s, categories) == Leading(t, categories)
  {
    if categories != [] { LeadingSame(s, t, categories[..|categories| - 1]); }
  }
}
