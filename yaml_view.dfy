/**
 * The YAML view of a record: the fixed block of `object`, `name`, `type`,
 * `source` and `dwarf` keys, then `attributes` holding the keys of the
 * record's kind, or `{}` when the kind has none. Absent values are `null`,
 * strings are double-quoted, booleans are `true`/`false`, line numbers are
 * decimal and offsets are lower-case hexadecimal after `0x`. A linked type's
 * authored prefix is always shown here, whatever the options say.
 */
module YamlView {
  import opened Wrappers
  import opened Strings
  import opened ScopeModel
  import TextView

  function Bool(b: bool): string {
    if b then "true" else "false"
  }

  function QuotedOrNull(s: Option<string>): string {
    match s
    case Some(v) => Quote(v)
    case None => "null"
  }

  function DecimalOrNull(n: Option<nat>): string {
    match n
    case Some(v) => Decimal(v)
    case None => "null"
  }

  function OffsetOrNull(n: Option<nat>): string {
    match n
    case Some(v) => HexOffset(v)
    case None => "null"
  }

  /** A file name: "?" when marked invalid, else the quoted path, else null. */
  function FileField(r: Record): string {
    if r.invalidFile then Quote("?") else QuotedOrNull(r.file)
  }

  /** The `type` value: the linked type's prefixed name; "void" for a function without one. */
  function TypeField(arena: seq<Record>, r: Record): string {
    match Lookup(arena, r.typeLink)
    case Some(t) => Quote(PrefixedName(t, true))
    case None => if r.kind.Function? || r.kind.InlinedFunction? then Quote("void") else "null"
  }

  function CommonLines(arena: seq<Record>, r: Record): (lines: seq<string>)
    requires IsRendered(r.kind)
    ensures |lines| == 9
  {
    [ "object: " + Quote(KindLabel(r.kind)),
      "name: " + QuotedOrNull(r.name),
      "type: " + TypeField(arena, r),
      "source:",
      "  line: " + DecimalOrNull(r.line),
      "  file: " + FileField(r),
      "dwarf:",
      "  offset: " + OffsetOrNull(r.offset),
      "  tag: " + QuotedOrNull(r.tag) ]
  }

  // ------------------------------------------------------------ child lists

  /** The child lists a record's attributes can hold. */
  datatype ListKind = InheritsFrom | Enumerators | TemplateTypes

  predicate Listed(k: Kind, which: ListKind) {
    match which
    case InheritsFrom => k.TypeImport?
    case Enumerators => k.TypeEnumerator?
    case TemplateTypes => k.TypeParam?
  }

  /** The children of the given list kind, in insertion order; dangling indices are skipped. */
  function Members(arena: seq<Record>, children: seq<nat>, which: ListKind): (ms: seq<Record>)
    ensures forall k :: 0 <= k < |ms| ==> Listed(ms[k].kind, which)
  {
    if |children| == 0 then []
    else
      var c := Lookup(arena, Some(children[0]));
      (if c.Some? && Listed(c.value.kind, which) then [c.value] else [])
      + Members(arena, children[1..], which)
  }

  /** The lines of one list item; `derived` is the tag of the aggregate that owns the list. */
  function ItemLines(arena: seq<Record>, m: Record, derived: AggregateTag): seq<string> {
    match m.kind
    case TypeImport(access) =>
      [ "    - parent: " + ParentField(arena, m),
        "      access_specifier: " + Quote(AccessText(EffectiveAccess(access, derived))) ]
    case TypeEnumerator(value) =>
      [ "    - enumerator: " + QuotedOrNull(m.name),
        "      value: " + value ]
    case TypeParam(param, value) =>
      [ "    - " + TemplateArgumentField(arena, m, param, value) ]
    case _ => []
  }

  /** The base an inheritance edge names: its linked record's prefixed name. */
  function ParentField(arena: seq<Record>, m: Record): string {
    match Lookup(arena, m.typeLink)
    case Some(b) => Quote(PrefixedName(b, true))
    case None => "null"
  }

  /** A type argument is its type's quoted name, a value a bare token, a template-template name quoted. */
  function TemplateArgumentField(arena: seq<Record>, m: Record, param: ParamKind, value: string): string {
    match param
    case TypeArgument =>
      (match Lookup(arena, m.typeLink)
       case Some(t) => Quote(PrefixedName(t, true))
       case None => "null")
    case ValueArgument => value
    case TemplateArgument => Quote(value)
  }

  function ListItems(arena: seq<Record>, ms: seq<Record>, derived: AggregateTag): seq<string> {
    if |ms| == 0 then []
    else ItemLines(arena, ms[0], derived) + ListItems(arena, ms[1..], derived)
  }

  /** A list key: inline `[]` when empty, else the key and one block item per member. */
  function ListLines(emptyLine: string, keyLine: string, items: seq<string>): seq<string> {
    if |items| == 0 then [emptyLine] else [keyLine] + items
  }

  // --------------------------------------------------------------- attributes

  /** One code-line flag key and whether it is set. */
  function FlagLine(f: Flag, flags: set<Flag>): string {
    "  " + LineFlagLabel(f) + ": " + Bool(f in flags)
  }

  /** One key per flag of `order`, in that order, whether set or not. */
  function FlagLines(order: seq<Flag>, flags: set<Flag>): (lines: seq<string>)
    ensures |lines| == |order|
  {
    if |order| == 0 then []
    else [FlagLine(order[0], flags)] + FlagLines(order[1..], flags)
  }

  /** The six code-line flags, always all of them, in their fixed order. */
  function LineFlagLines(flags: set<Flag>): (lines: seq<string>)
    ensures |lines| == 6
  {
    FlagLines(LineFlagOrder, flags)
  }

  function DeclarationLines(arena: seq<Record>, r: Record): (lines: seq<string>)
    ensures |lines| == 3
  {
    match Lookup(arena, r.reference)
    case None => ["  declaration:", "    file: null", "    line: null"]
    case Some(decl) => ["  declaration:", "    file: " + FileField(decl), "    line: " + Decimal(decl.line.GetOr(0))]
  }

  function AttributeEntries(arena: seq<Record>, r: Record): (es: seq<string>)
    ensures r.kind == CodeLine ==> |es| == 6
    ensures r.kind == Function || r.kind == InlinedFunction ==> |es| == 8
  {
    match r.kind
    case CodeLine => LineFlagLines(r.flags)
    case Block => ["  try: " + Bool(TryBlock in r.flags), "  catch: " + Bool(CatchBlock in r.flags)]
    case Aggregate(tag) =>
      var bases := Members(arena, r.children, InheritsFrom);
      ["  is_template: " + Bool(Template in r.flags)]
      + (if |bases| == 0 then [] else ["  inherits_from:"] + ListItems(arena, bases, tag))
    case Enumeration =>
      ["  class: " + Bool(EnumClass in r.flags)]
      + ListLines("  enumerators: []", "  enumerators:", ListItems(arena, Members(arena, r.children, Enumerators), ClassTag))
    case Function => FunctionEntries(arena, r)
    case InlinedFunction => FunctionEntries(arena, r)
    case TemplatePack =>
      ListLines("  types: []", "  types:", ListItems(arena, Members(arena, r.children, TemplateTypes), ClassTag))
    case _ => []
  }

  function FunctionEntries(arena: seq<Record>, r: Record): (es: seq<string>)
    ensures |es| == 8
  {
    DeclarationLines(arena, r)
    + [ "  is_template: " + Bool(Template in r.flags),
        "  static: " + Bool(Static in r.flags),
        "  inline: " + Bool(DeclaredInline in r.flags),
        "  is_inlined: " + Bool(Inlined in r.flags || r.kind.InlinedFunction?),
        "  is_declaration: " + Bool(Declaration in r.flags) ]
  }

  function YamlLines(arena: seq<Record>, r: Record): (lines: seq<string>)
    requires IsRendered(r.kind)
    ensures |lines| == 10 + |AttributeEntries(arena, r)|
  {
    Layout(CommonLines(arena, r), AttributeEntries(arena, r))
  }

  /** The common lines, then `attributes:` over the entries, or `attributes: {}` when there are none. */
  function Layout(common: seq<string>, entries: seq<string>): seq<string> {
    common + (if |entries| == 0 then ["attributes: {}"] else ["attributes:"] + entries)
  }

  /** getAsYAML: the lines joined by newlines, with no trailing newline. */
  function AsYAML(arena: seq<Record>, r: Record): (y: string)
    requires IsRendered(r.kind)
    ensures StartsWith(y, "object: " + Quote(KindLabel(r.kind)))
  {
    YamlHead(arena, r);
    JoinLinesStartsWithFirst(YamlLines(arena, r));
    JoinLines(YamlLines(arena, r))
  }

  // ================================================================ laws

  /** The common block, then `attributes` with the kind's entries or `{}`. */
  lemma YamlHead(arena: seq<Record>, r: Record)
    requires IsRendered(r.kind)
    ensures var lines := YamlLines(arena, r);
            var entries := AttributeEntries(arena, r);
            && |lines| == 10 + |entries|
            && (forall k :: 0 <= k < 9 ==> lines[k] == CommonLines(arena, r)[k])
            && lines[9] == (if |entries| == 0 then "attributes: {}" else "attributes:")
            && (forall k :: 0 <= k < |entries| ==> lines[10 + k] == entries[k])
  {
  }

  lemma StartsWithConcat(a: string, b: string)
    ensures StartsWith(a + b, a)
  {
    assert (a + b)[..|a|] == a;
  }

  /**
   * The nine lines every record's view opens with (YamlHead places them first):
   * the object label, then the keys name, type, source with line and file, and
   * dwarf with offset and tag, always in this order and always present.
   */
  lemma FixedKeysLaw(arena: seq<Record>, r: Record)
    requires IsRendered(r.kind)
    ensures var common := CommonLines(arena, r);
            && common[0] == "object: " + Quote(KindLabel(r.kind))
            && StartsWith(common[1], "name: ") && StartsWith(common[2], "type: ")
            && common[3] == "source:"
            && StartsWith(common[4], "  line: ") && StartsWith(common[5], "  file: ")
            && common[6] == "dwarf:"
            && StartsWith(common[7], "  offset: ") && StartsWith(common[8], "  tag: ")
  {
    StartsWithConcat("name: ", QuotedOrNull(r.name));
    StartsWithConcat("type: ", TypeField(arena, r));
    StartsWithConcat("  line: ", DecimalOrNull(r.line));
    StartsWithConcat("  file: ", FileField(r));
    StartsWithConcat("  offset: ", OffsetOrNull(r.offset));
    StartsWithConcat("  tag: ", QuotedOrNull(r.tag));
  }

  /** `attributes: {}` stands alone exactly when the kind has no attribute lines. */
  lemma EmptyAttributesLaw(arena: seq<Record>, r: Record)
    requires IsRendered(r.kind)
    ensures var lines := YamlLines(arena, r);
            lines[9] == "attributes: {}" <==> |lines| == 10
  {
    YamlHead(arena, r);
    assert "attributes:" != "attributes: {}";
  }

  /** A keyed value is the literal `null` exactly when it is absent. */
  lemma NullOrQuoted(key: string, v: Option<string>)
    ensures key + QuotedOrNull(v) == key + "null" <==> v.None?
  {
    if v.Some? {
      var q := Quote(v.value);
      assert (key + q)[|key|] == '"';
      assert (key + "null")[|key|] == 'n';
    }
  }

  lemma NumberOrNull(key: string, n: Option<nat>)
    ensures key + DecimalOrNull(n) == key + "null" <==> n.None?
  {
    if n.Some? {
      var d := Decimal(n.value);
      assert IsDigit(d[0], 10);
      assert (key + d)[|key|] == d[0];
      assert (key + "null")[|key|] == 'n';
    }
  }

  lemma LineDigits(key: string, n: nat)
    requires |key| == 8
    ensures ParseDigits((key + Decimal(n))[8..], 10) == n
  {
    assert (key + Decimal(n))[8..] == Decimal(n);
    DigitsRoundTrip(n, 10);
  }

  /** An absent name, line or tag is `null`; a present one is quoted or a numeral, so the two never meet. */
  lemma NullFieldsLaw(arena: seq<Record>, r: Record)
    requires IsRendered(r.kind)
    ensures CommonLines(arena, r)[1] == "name: " + "null" <==> r.name.None?
    ensures CommonLines(arena, r)[4] == "  line: " + "null" <==> r.line.None?
    ensures r.line.Some? ==> ParseDigits(CommonLines(arena, r)[4][8..], 10) == r.line.value
    ensures CommonLines(arena, r)[8] == "  tag: " + "null" <==> r.tag.None?
  {
    NullOrQuoted("name: ", r.name);
    NumberOrNull("  line: ", r.line);
    if r.line.Some? {
      LineDigits("  line: ", r.line.value);
    }
    NullOrQuoted("  tag: ", r.tag);
  }

  /**
   * Present values: a name and a tag are quoted; a file is quoted, "?" when
   * marked invalid, null when absent; the type is the linked type's quoted
   * prefixed name, or null for a kind other than a function.
   */
  lemma PresentFieldsLaw(arena: seq<Record>, r: Record)
    requires IsRendered(r.kind)
    ensures r.name.Some? ==> CommonLines(arena, r)[1] == "name: " + Quote(r.name.value)
    ensures r.tag.Some? ==> CommonLines(arena, r)[8] == "  tag: " + Quote(r.tag.value)
    ensures r.invalidFile ==> CommonLines(arena, r)[5] == "  file: " + Quote("?")
    ensures !r.invalidFile && r.file.Some? ==> CommonLines(arena, r)[5] == "  file: " + Quote(r.file.value)
    ensures !r.invalidFile && r.file.None? ==> CommonLines(arena, r)[5] == "  file: " + "null"
    ensures Lookup(arena, r.typeLink).Some? ==>
              CommonLines(arena, r)[2] == "type: " + Quote(PrefixedName(Lookup(arena, r.typeLink).value, true))
    ensures Lookup(arena, r.typeLink).None? && !(r.kind == Function || r.kind == InlinedFunction) ==>
              CommonLines(arena, r)[2] == "type: " + "null"
  {
  }

  /** An offset is rendered as "0x" and lower-case hex digits that read back as the offset. */
  lemma OffsetLaw(arena: seq<Record>, r: Record)
    requires IsRendered(r.kind)
    ensures var line := CommonLines(arena, r)[7];
            && (r.offset.None? ==> line == "  offset: " + "null")
            && (r.offset.Some? ==>
                  StartsWith(line, "  offset: " + "0x") && line[12..] == Hex(r.offset.value)
                  && ParseDigits(line[12..], 16) == r.offset.value)
  {
    if r.offset.Some? {
      OffsetDigits("  offset: ", r.offset.value);
    }
  }

  lemma OffsetDigits(key: string, n: nat)
    requires |key| == 10
    ensures var line := key + HexOffset(n);
            StartsWith(line, key + "0x") && line[12..] == Hex(n) && ParseDigits(line[12..], 16) == n
  {
    var h := HexOffset(n);
    var line := key + h;
    assert h == "0x" + Hex(n);
    assert line[..12] == key + h[..2];
    assert line[12..] == h[2..];
  }

  /** A code line always lists its six flags, in the fixed order, each true exactly when set. */
  lemma CodeLineFlagsLaw(arena: seq<Record>, r: Record)
    requires r.kind == CodeLine
    ensures var lines := YamlLines(arena, r);
            && |lines| == 16 && lines[9] == "attributes:"
            && forall k :: 0 <= k < 6 ==>
                 lines[10 + k] == "  " + LineFlagLabel(LineFlagOrder[k]) + ": " + Bool(LineFlagOrder[k] in r.flags)
  {
    YamlHead(arena, r);
    var lines := YamlLines(arena, r);
    var flagLines := LineFlagLines(r.flags);
    assert AttributeEntries(arena, r) == flagLines;
    forall k | 0 <= k < 6
      ensures lines[10 + k] == FlagLine(LineFlagOrder[k], r.flags)
    {
      FlagLinesAt(LineFlagOrder, r.flags, k);
      assert lines[10 + k] == flagLines[k];
    }
  }

  lemma {:induction false} FlagLinesAt(order: seq<Flag>, flags: set<Flag>, k: nat)
    requires k < |order|
    ensures FlagLines(order, flags)[k] == FlagLine(order[k], flags)
  {
    if k > 0 {
      FlagLinesAt(order[1..], flags, k - 1);
    }
  }

  /** Setting flag order[k] changes its key alone, when no other position holds the same flag. */
  lemma FlagLinesSet(order: seq<Flag>, flags: set<Flag>, k: nat)
    requires k < |order|
    requires forall j :: 0 <= j < |order| && j != k ==> order[j] != order[k]
    ensures FlagLines(order, flags + {order[k]})
         == FlagLines(order, flags)[k := "  " + LineFlagLabel(order[k]) + ": " + Bool(true)]
  {
    var f := order[k];
    var after := FlagLines(order, flags + {f});
    var before := FlagLines(order, flags);
    var set1 := "  " + LineFlagLabel(f) + ": " + Bool(true);
    forall j | 0 <= j < |order|
      ensures after[j] == before[k := set1][j]
    {
      FlagLinesAt(order, flags + {f}, j);
      FlagLinesAt(order, flags, j);
      if j != k {
        assert order[j] in flags + {f} <==> order[j] in flags;
      }
    }
  }

  lemma LayoutUpdate(common: seq<string>, entries: seq<string>, k: nat, x: string)
    requires |common| == 9 && k < |entries|
    ensures Layout(common, entries[k := x]) == Layout(common, entries)[10 + k := x]
  {
    assert ["attributes:"] + entries[k := x] == (["attributes:"] + entries)[k + 1 := x];
  }

  /** Setting one code-line flag turns exactly its key true and leaves every other line as it was. */
  lemma SetFlagTurnsOneKeyTrue(arena: seq<Record>, r: Record, k: nat)
    requires r.kind == CodeLine && k < 6
    ensures var f := LineFlagOrder[k];
            YamlLines(arena, r.(flags := r.flags + {f}))
            == YamlLines(arena, r)[10 + k := "  " + LineFlagLabel(f) + ": " + Bool(true)]
  {
    var f := LineFlagOrder[k];
    var r' := r.(flags := r.flags + {f});
    var common := CommonLines(arena, r);
    assert CommonLines(arena, r') == common;
    assert AttributeEntries(arena, r) == LineFlagLines(r.flags);
    assert AttributeEntries(arena, r') == LineFlagLines(r'.flags);
    LineFlagOrderDistinct(k);
    FlagLinesSet(LineFlagOrder, r.flags, k);
    LayoutUpdate(common, LineFlagLines(r.flags), k, "  " + LineFlagLabel(f) + ": " + Bool(true));
  }

  /** Appending a child appends its item to the list it belongs to: lists keep insertion order. */
  lemma {:induction false} MembersAppend(arena: seq<Record>, children: seq<nat>, c: nat, which: ListKind)
    ensures Members(arena, children + [c], which)
         == Members(arena, children, which)
            + (if c < |arena| && Listed(arena[c].kind, which) then [arena[c]] else [])
    decreases |children|
  {
    if |children| == 0 {
      assert ([c])[1..] == [];
    } else {
      assert (children + [c])[0] == children[0];
      assert (children + [c])[1..] == children[1..] + [c];
      MembersAppend(arena, children[1..], c, which);
    }
  }

  lemma {:induction false} ListItemsAppend(arena: seq<Record>, ms: seq<Record>, m: Record, derived: AggregateTag)
    ensures ListItems(arena, ms + [m], derived) == ListItems(arena, ms, derived) + ItemLines(arena, m, derived)
    decreases |ms|
  {
    if |ms| == 0 {
      assert ([m])[1..] == [];
    } else {
      assert (ms + [m])[0] == ms[0];
      assert (ms + [m])[1..] == ms[1..] + [m];
      ListItemsAppend(arena, ms[1..], m, derived);
    }
  }

  /** The items of a child list after one more child is added: the old items, then the new child's. */
  lemma ChildListInsertionOrder(arena: seq<Record>, children: seq<nat>, c: nat, which: ListKind, derived: AggregateTag)
    requires c < |arena| && Listed(arena[c].kind, which)
    ensures ListItems(arena, Members(arena, children + [c], which), derived)
         == ListItems(arena, Members(arena, children, which), derived) + ItemLines(arena, arena[c], derived)
  {
    MembersAppend(arena, children, c, which);
    ListItemsAppend(arena, Members(arena, children, which), arena[c], derived);
  }

  /**
   * Empty lists: an enumeration or a template pack with no such children shows
   * its list inline as `[]`; an aggregate with no inheritance edge has no
   * `inherits_from` key at all.
   */
  lemma EmptyListLaw(arena: seq<Record>, r: Record)
    ensures r.kind == Enumeration && Members(arena, r.children, Enumerators) == [] ==>
              AttributeEntries(arena, r) == ["  class: " + Bool(EnumClass in r.flags), "  enumerators: []"]
    ensures r.kind == TemplatePack && Members(arena, r.children, TemplateTypes) == [] ==>
              AttributeEntries(arena, r) == ["  types: []"]
    ensures r.kind.Aggregate? && Members(arena, r.children, InheritsFrom) == [] ==>
              AttributeEntries(arena, r) == ["  is_template: " + Bool(Template in r.flags)]
  {
    assert ListItems(arena, [], ClassTag) == [];
  }

  /**
   * An inheritance edge shows the deriving aggregate's view of its access: an
   * explicit specifier unchanged, an unspecified one "private" under a class
   * and "public" under a struct, whatever the base is.
   */
  lemma InheritanceAccessLaw(arena: seq<Record>, m: Record, derived: AggregateTag)
    requires m.kind.TypeImport?
    ensures var lines := ItemLines(arena, m, derived);
            && |lines| == 2
            && lines[0] == "    - parent: " + ParentField(arena, m)
            && (Lookup(arena, m.typeLink).Some? ==>
                  lines[0] == "    - parent: " + Quote(PrefixedName(Lookup(arena, m.typeLink).value, true)))
            && (Lookup(arena, m.typeLink).None? ==> lines[0] == "    - parent: " + "null")
            && (m.kind.access == Unspecified && derived == ClassTag ==>
                  lines[1] == "      access_specifier: " + Quote("private"))
            && (m.kind.access == Unspecified && derived == StructTag ==>
                  lines[1] == "      access_specifier: " + Quote("public"))
            && (m.kind.access != Unspecified ==>
                  lines[1] == "      access_specifier: " + Quote(AccessText(m.kind.access)))
  {
  }

  /** A function without a type is shown as returning "void". */
  lemma FunctionVoidTypeLaw(arena: seq<Record>, r: Record)
    requires r.kind == Function || r.kind == InlinedFunction
    ensures Lookup(arena, r.typeLink).None? ==> CommonLines(arena, r)[2] == "type: " + Quote("void")
  {
  }

  /**
   * A function's declaration: null file and line without a reference; for a
   * reference its quoted file, or "?" when that file is marked invalid, and
   * the line the reference keeps.
   */
  lemma FunctionDeclarationLaw(arena: seq<Record>, r: Record)
    requires r.kind == Function || r.kind == InlinedFunction
    ensures var lines := YamlLines(arena, r);
            var decl := Lookup(arena, r.reference);
            && lines[10] == "  declaration:"
            && (decl.None? ==> lines[11] == "    file: null" && lines[12] == "    line: null")
            && (decl.Some? && decl.value.invalidFile ==>
                  lines[11] == "    file: " + Quote("?")
                  && lines[12] == "    line: " + Decimal(decl.value.line.GetOr(0)))
            && (decl.Some? && !decl.value.invalidFile && decl.value.file.Some? ==>
                  lines[11] == "    file: " + Quote(decl.value.file.value)
                  && lines[12] == "    line: " + Decimal(decl.value.line.GetOr(0)))
  {
    YamlHead(arena, r);
    var lines := YamlLines(arena, r);
    var entries := FunctionEntries(arena, r);
    var decl := DeclarationLines(arena, r);
    assert AttributeEntries(arena, r) == entries;
    assert entries[0] == decl[0] && entries[1] == decl[1] && entries[2] == decl[2];
    assert lines[10] == entries[0] && lines[11] == entries[1] && lines[12] == entries[2];
  }

  /** An inlined subroutine is always reported as inlined. */
  lemma InlinedSubroutineLaw(arena: seq<Record>, r: Record)
    requires r.kind == InlinedFunction
    ensures YamlLines(arena, r)[16] == "  is_inlined: " + Bool(true)
  {
    YamlHead(arena, r);
    var entries := FunctionEntries(arena, r);
    assert AttributeEntries(arena, r) == entries;
    assert YamlLines(arena, r)[16] == entries[6];
  }

  /**
   * The type name YAML shows is the text view's under the qualified-name
   * option; without it, text drops an authored prefix that YAML keeps.
   */
  lemma TypePrefixTextVersusYaml(arena: seq<Record>, r: Record, opts: Options)
    requires Lookup(arena, r.typeLink).Some?
    ensures opts.qualifiedName ==> TypeField(arena, r) == Quote(TextView.TypeText(arena, r, opts))
    ensures var t := Lookup(arena, r.typeLink).value;
            !opts.qualifiedName && t.hasQualifiedName ==>
              && TextView.TypeText(arena, r, opts) == NameText(t)
              && TypeField(arena, r) == Quote(t.qualifiedName + NameText(t))
  {
  }

  /**
   * The forms of list items: an enumerator's name is quoted (or null) and its
   * value bare; a value argument is bare, a template-template argument quoted,
   * and a type argument is its type's quoted name, or null when it has none.
   */
  lemma ListItemFormsLaw(arena: seq<Record>, m: Record, derived: AggregateTag)
    requires m.kind.TypeEnumerator? || m.kind.TypeParam?
    ensures var lines := ItemLines(arena, m, derived);
            && (m.kind.TypeEnumerator? ==>
                  lines == ["    - enumerator: " + QuotedOrNull(m.name), "      value: " + m.kind.value])
            && (m.kind.TypeParam? ==> |lines| == 1)
            && (m.kind.TypeParam? && m.kind.param == ValueArgument ==> lines[0] == "    - " + m.kind.value)
            && (m.kind.TypeParam? && m.kind.param == TemplateArgument ==> lines[0] == "    - " + Quote(m.kind.value))
            && (m.kind.TypeParam? && m.kind.param == TypeArgument ==>
                  (lines[0] == "    - " + "null" <==> Lookup(arena, m.typeLink).None?))
            && (m.kind.TypeParam? && m.kind.param == TypeArgument && Lookup(arena, m.typeLink).Some? ==>
                  lines[0] == "    - " + Quote(PrefixedName(Lookup(arena, m.typeLink).value, true)))
  {
    if m.kind.TypeParam? && m.kind.param == TypeArgument {
      var t := Lookup(arena, m.typeLink);
      NullOrQuoted("    - ", if t.Some? then Some(PrefixedName(t.value, true)) else None);
    }
  }
}
