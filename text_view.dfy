/**
 * The text view of a record: a header line naming the kind in braces,
 * followed by one line per attribute that applies, each indented by a fixed
 * 15 columns (plus two per nesting level when indentation is on) and led by
 * "- ". The view reads the record, the records its links name (one hop only)
 * and the options.
 */
module TextView {
  import opened Wrappers
  import opened Strings
  import opened ScopeModel

  /** Columns before the "- " of an attribute line: 3 + 4 + 8, plus (level + 1) * 2 under indentation. */
  function IndentWidth(level: nat, opts: Options): nat {
    15 + (if opts.indentation then (level + 1) * 2 else 0)
  }

  function AttributeLine(text: string, level: nat, opts: Options): string {
    Spaces(IndentWidth(level, opts)) + "- " + text
  }

  /** The name a Function or Namespace shows: qualified by its parent chain under the qualified-name option. */
  function DisplayName(arena: seq<Record>, r: Record, opts: Options): string {
    (if opts.qualifiedName then QualifiedPrefix(arena, r) else "") + NameText(r)
  }

  /** The linked type's name as text shows it; its authored prefix only under the qualified-name option. */
  function TypeText(arena: seq<Record>, r: Record, opts: Options): string {
    match Lookup(arena, r.typeLink)
    case None => ""
    case Some(t) => PrefixedName(t, opts.qualifiedName)
  }

  /** The declaration's file as text shows it: "?" when marked invalid, else full path or basename. */
  function DeclarationPath(decl: Record, opts: Options): string {
    if decl.invalidFile then "?"
    else if opts.fileName then Basename(decl.file.GetOr(""))
    else decl.file.GetOr("")
  }

  /** The first attribute line of a function. */
  function DeclarationStatus(arena: seq<Record>, r: Record, opts: Options): string {
    match Lookup(arena, r.reference)
    case Some(decl) => "Declaration @ " + DeclarationPath(decl, opts) + "," + Decimal(decl.line.GetOr(0))
    case None => if Declaration in r.flags then "Is declaration" else "No declaration"
  }

  /** The labels of the flags in `order` that are set, in that order. */
  function FlagLabels(order: seq<Flag>, flags: set<Flag>): seq<string> {
    if |order| == 0 then []
    else (if order[0] in flags then [LineFlagLabel(order[0])] else []) + FlagLabels(order[1..], flags)
  }

  function FunctionLabels(arena: seq<Record>, r: Record, opts: Options): seq<string> {
    [DeclarationStatus(arena, r, opts)]
    + (if Template in r.flags then ["Template"] else [])
    + (if Inlined in r.flags || r.kind.InlinedFunction? then ["Inlined"] else [])
    + (if Declaration in r.flags && Lookup(arena, r.reference).Some? then ["Is declaration"] else [])
  }

  /** The attribute labels a record shows, in order. */
  function AttributeLabels(arena: seq<Record>, r: Record, opts: Options): seq<string> {
    match r.kind
    case CodeLine =>
      if opts.printCodelineAttributes then FlagLabels(LineFlagOrder, r.flags) else []
    case Block =>
      if opts.printBlockAttributes then
        (if TryBlock in r.flags then ["try"] else []) + (if CatchBlock in r.flags then ["catch"] else [])
      else []
    case Aggregate(_) => if Template in r.flags then ["Template"] else []
    case Function => FunctionLabels(arena, r, opts)
    case InlinedFunction => FunctionLabels(arena, r, opts)
    case _ => []
  }

  /** What follows the braced kind label on the header line. */
  function HeaderTail(arena: seq<Record>, r: Record, opts: Options): string {
    match r.kind
    case Alias => " " + Quote(NameText(r)) + " -> " + Quote(TypeText(arena, r, opts))
    case Enumeration =>
      (if EnumClass in r.flags then " class" else "") + " " + Quote(NameText(r))
      + (if Lookup(arena, r.typeLink).Some? then " -> " + Quote(TypeText(arena, r, opts)) else "")
    case Function => FunctionTail(arena, r, opts)
    case InlinedFunction => FunctionTail(arena, r, opts)
    case Namespace => if r.name.Some? then " " + Quote(DisplayName(arena, r, opts)) else ""
    case CodeLine => ""
    case Block => ""
    case _ => " " + Quote(NameText(r))
  }

  function FunctionTail(arena: seq<Record>, r: Record, opts: Options): string {
    (if Static in r.flags then " static" else "")
    + (if DeclaredInline in r.flags then " inline" else "")
    + " " + Quote(DisplayName(arena, r, opts)) + " -> " + Quote(TypeText(arena, r, opts))
  }

  function Header(arena: seq<Record>, r: Record, opts: Options): string
    requires IsRendered(r.kind)
  {
    "{" + KindLabel(r.kind) + "}" + HeaderTail(arena, r, opts)
  }

  function AttributeLines(labels: seq<string>, level: nat, opts: Options): (lines: seq<string>)
    ensures |lines| == |labels|
  {
    if |labels| == 0 then []
    else [AttributeLine(labels[0], level, opts)] + AttributeLines(labels[1..], level, opts)
  }

  lemma {:induction false} AttributeLinesAt(labels: seq<string>, level: nat, opts: Options, k: nat)
    requires k < |labels|
    ensures AttributeLines(labels, level, opts)[k] == AttributeLine(labels[k], level, opts)
  {
    if k > 0 {
      AttributeLinesAt(labels[1..], level, opts, k - 1);
    }
  }

  lemma {:induction false} AttributeLinesAppend(labels: seq<string>, text: string, level: nat, opts: Options)
    ensures AttributeLines(labels + [text], level, opts)
         == AttributeLines(labels, level, opts) + [AttributeLine(text, level, opts)]
  {
    if |labels| == 0 {
      assert ([text])[1..] == [];
    } else {
      assert (labels + [text])[1..] == labels[1..] + [text];
      AttributeLinesAppend(labels[1..], text, level, opts);
    }
  }

  /** The lines of the text view: the header, then one line per attribute label. */
  function TextLines(arena: seq<Record>, r: Record, opts: Options): (lines: seq<string>)
    requires IsRendered(r.kind)
  {
    [Header(arena, r, opts)] + AttributeLines(AttributeLabels(arena, r, opts), r.level, opts)
  }

  /** getAsText: the lines joined by newlines, with no trailing newline. */
  function AsText(arena: seq<Record>, r: Record, opts: Options): (t: string)
    requires IsRendered(r.kind)
    ensures StartsWith(t, Header(arena, r, opts))
  {
    JoinLinesStartsWithFirst(TextLines(arena, r, opts));
    JoinLines(TextLines(arena, r, opts))
  }

  // ================================================================ laws

  /** The fragment opens with the braced kind label, for every kind, Array and Root included. */
  lemma HeaderNamesKind(arena: seq<Record>, r: Record, opts: Options)
    requires IsRendered(r.kind)
    ensures StartsWith(AsText(arena, r, opts), "{" + KindLabel(r.kind) + "}")
  {
    var lines := TextLines(arena, r, opts);
    JoinLinesStartsWithFirst(lines);
    assert StartsWith(lines[0], "{" + KindLabel(r.kind) + "}");
  }

  /**
   * Every attribute line is 15 blanks and "- " when indentation is off, and
   * 15 + (level + 1) * 2 blanks and "- " when it is on, followed by its label.
   */
  lemma IndentationLaw(arena: seq<Record>, r: Record, opts: Options, k: nat)
    requires IsRendered(r.kind) && 1 <= k < |TextLines(arena, r, opts)|
    ensures var line := TextLines(arena, r, opts)[k];
            var shown := AttributeLabels(arena, r, opts)[k - 1];
            && (!opts.indentation ==> line == Spaces(15) + "- " + shown)
            && (opts.indentation ==> line == Spaces(15 + (r.level + 1) * 2) + "- " + shown)
  {
    AttributeLineAt(arena, r, opts, k);
    var w := IndentWidth(r.level, opts);
    assert w == if opts.indentation then 15 + (r.level + 1) * 2 else 15;
  }

  lemma AttributeLineAt(arena: seq<Record>, r: Record, opts: Options, k: nat)
    requires IsRendered(r.kind) && 1 <= k < |TextLines(arena, r, opts)|
    ensures TextLines(arena, r, opts)[k]
         == AttributeLine(AttributeLabels(arena, r, opts)[k - 1], r.level, opts)
  {
    var labels := AttributeLabels(arena, r, opts);
    assert TextLines(arena, r, opts)[k] == AttributeLines(labels, r.level, opts)[k - 1];
    AttributeLinesAt(labels, r.level, opts, k - 1);
  }

  /** A code line with no flags set, or with code-line attributes off, renders as its bare header. */
  lemma CodeLineWithoutAttributes(arena: seq<Record>, r: Record, opts: Options)
    requires r.kind == CodeLine
    requires !opts.printCodelineAttributes || forall k :: 0 <= k < |LineFlagOrder| ==> LineFlagOrder[k] !in r.flags
    ensures AsText(arena, r, opts) == "{CodeLine}"
  {
    if opts.printCodelineAttributes {
      NoFlagLabels(LineFlagOrder, r.flags);
    }
  }

  lemma {:induction false} NoFlagLabels(order: seq<Flag>, flags: set<Flag>)
    requires forall k :: 0 <= k < |order| ==> order[k] !in flags
    ensures FlagLabels(order, flags) == []
  {
    if |order| > 0 {
      NoFlagLabels(order[1..], flags);
    }
  }

  /**
   * Setting flag order[k] on top of flags none of which comes at or after
   * position k appends exactly that flag's label.
   */
  lemma {:induction false} FlagLabelsAppend(order: seq<Flag>, flags: set<Flag>, k: nat)
    requires k < |order|
    requires forall j :: 0 <= j < |order| && j != k ==> order[j] != order[k]
    requires forall j :: k <= j < |order| ==> order[j] !in flags
    ensures FlagLabels(order, flags + {order[k]}) == FlagLabels(order, flags) + [LineFlagLabel(order[k])]
  {
    var f := order[k];
    if k == 0 {
      NoFlagLabels(order[1..], flags);
      NoFlagLabels(order[1..], flags + {f});
    } else {
      FlagLabelsAppend(order[1..], flags, k - 1);
      assert order[0] in flags + {f} <==> order[0] in flags;
    }
  }

  /**
   * With code-line attributes on, setting the flags in their fixed order grows
   * the text by one line per flag: the indent, "- " and that flag's label.
   */
  lemma CodeLineFlagAppends(arena: seq<Record>, r: Record, opts: Options, k: nat)
    requires r.kind == CodeLine && opts.printCodelineAttributes && k < 6
    requires forall j :: k <= j < 6 ==> LineFlagOrder[j] !in r.flags
    ensures var f := LineFlagOrder[k];
            AsText(arena, r.(flags := r.flags + {f}), opts)
            == AsText(arena, r, opts) + "\n" + AttributeLine(LineFlagLabel(f), r.level, opts)
  {
    var f := LineFlagOrder[k];
    var r' := r.(flags := r.flags + {f});
    LineFlagOrderDistinct(k);
    FlagLabelsAppend(LineFlagOrder, r.flags, k);
    AttributeLinesAppend(AttributeLabels(arena, r, opts), LineFlagLabel(f), r.level, opts);
    var before := TextLines(arena, r, opts);
    var after := TextLines(arena, r', opts);
    assert after == before + [AttributeLine(LineFlagLabel(f), r.level, opts)];
    JoinLinesAppend(before, AttributeLine(LineFlagLabel(f), r.level, opts));
  }

  /** A block shows "try" and "catch" lines exactly when the flag is set and block attributes are on, "try" first. */
  lemma BlockAttributeLaw(arena: seq<Record>, r: Record, opts: Options)
    requires r.kind == Block
    ensures var labels := AttributeLabels(arena, r, opts);
            && ("try" in labels <==> opts.printBlockAttributes && TryBlock in r.flags)
            && ("catch" in labels <==> opts.printBlockAttributes && CatchBlock in r.flags)
            && |labels| <= 2
            && (|labels| == 2 ==> labels == ["try", "catch"])
  {
  }

  /**
   * The first attribute line of a function is exactly one of "Declaration @ ...",
   * "Is declaration" and "No declaration": the first when a reference exists,
   * else the second when the declaration flag is set, else the third.
   */
  lemma DeclarationStatusLaw(arena: seq<Record>, r: Record, opts: Options)
    requires r.kind == Function || r.kind == InlinedFunction
    ensures |TextLines(arena, r, opts)| >= 2
    ensures TextLines(arena, r, opts)[1] == AttributeLine(DeclarationStatus(arena, r, opts), r.level, opts)
    ensures var s := DeclarationStatus(arena, r, opts);
            && (Lookup(arena, r.reference).Some? <==> StartsWith(s, "Declaration @ "))
            && (s == "Is declaration" <==> Lookup(arena, r.reference).None? && Declaration in r.flags)
            && (s == "No declaration" <==> Lookup(arena, r.reference).None? && Declaration !in r.flags)
  {
    var labels := AttributeLabels(arena, r, opts);
    assert labels == FunctionLabels(arena, r, opts);
    assert labels[0] == DeclarationStatus(arena, r, opts);
    StatusForms(arena, r, opts);
  }

  lemma StatusForms(arena: seq<Record>, r: Record, opts: Options)
    ensures var s := DeclarationStatus(arena, r, opts);
            && (Lookup(arena, r.reference).Some? <==> StartsWith(s, "Declaration @ "))
            && (s == "Is declaration" <==> Lookup(arena, r.reference).None? && Declaration in r.flags)
            && (s == "No declaration" <==> Lookup(arena, r.reference).None? && Declaration !in r.flags)
  {
    var s := DeclarationStatus(arena, r, opts);
    assert !StartsWith("Is declaration", "Declaration @ ") by {
      assert "Is declaration"[0] != "Declaration @ "[0];
    }
    assert !StartsWith("No declaration", "Declaration @ ") by {
      assert "No declaration"[0] != "Declaration @ "[0];
    }
    if Lookup(arena, r.reference).Some? {
      assert s[0] == 'D';
    }
  }

  /**
   * The declaration's location is its path and line: "?" once its file is
   * marked invalid (the line is kept), the basename under the file-name
   * option, the full path otherwise.
   */
  lemma DeclarationPathLaw(arena: seq<Record>, r: Record, opts: Options)
    requires Lookup(arena, r.reference).Some?
    ensures var decl := Lookup(arena, r.reference).value;
            var path := DeclarationPath(decl, opts);
            var file := decl.file.GetOr("");
            && DeclarationStatus(arena, r, opts) == "Declaration @ " + path + "," + Decimal(decl.line.GetOr(0))
            && (decl.invalidFile ==> path == "?")
            && (!decl.invalidFile && !opts.fileName ==> path == file)
            && (!decl.invalidFile && opts.fileName ==>
                  '/' !in path && |path| <= |file| && path == file[|file| - |path|..]
                  && (|path| < |file| ==> file[|file| - |path| - 1] == '/'))
  {
  }

  /**
   * "Is declaration" is shown exactly when the declaration flag is set: as the
   * status line without a reference, as a trailing line beside "Declaration @".
   */
  lemma IsDeclarationShownIffFlag(arena: seq<Record>, r: Record, opts: Options)
    requires r.kind == Function || r.kind == InlinedFunction
    ensures "Is declaration" in FunctionLabels(arena, r, opts) <==> Declaration in r.flags
  {
    StatusForms(arena, r, opts);
  }

  /**
   * A function's or namespace's shown name: the bare name with the
   * qualified-name option off; with it on, every ancestor name followed by
   * "::", outermost first, before the name.
   */
  lemma QualifiedNameLaw(arena: seq<Record>, r: Record, opts: Options)
    ensures !opts.qualifiedName ==> DisplayName(arena, r, opts) == NameText(r)
    ensures opts.qualifiedName ==>
      DisplayName(arena, r, opts)
      == ChainBase(arena, r.parent, |arena|)
         + JoinScopes(OuterFirstNames(arena, AncestorChain(arena, r.parent, |arena|)))
         + NameText(r)
  {
    PrefixIsOuterFirstJoin(arena, r.parent, |arena|);
  }

  /**
   * A function's header: the Function label for both function kinds, " static"
   * then " inline" when flagged, then the quoted name and the quoted type, each
   * of which is "" when absent.
   */
  lemma FunctionHeaderLaw(arena: seq<Record>, r: Record, opts: Options)
    requires r.kind == Function || r.kind == InlinedFunction
    ensures Header(arena, r, opts)
         == "{Function}"
            + (if Static in r.flags then " static" else "")
            + (if DeclaredInline in r.flags then " inline" else "")
            + " " + Quote(DisplayName(arena, r, opts)) + " -> " + Quote(TypeText(arena, r, opts))
    ensures r.name.None? && !opts.qualifiedName ==> DisplayName(arena, r, opts) == ""
    ensures Lookup(arena, r.typeLink).None? ==> TypeText(arena, r, opts) == ""
  {
    var st := if Static in r.flags then " static" else "";
    var il := if DeclaredInline in r.flags then " inline" else "";
    var n := Quote(DisplayName(arena, r, opts));
    var t := Quote(TypeText(arena, r, opts));
    assert HeaderTail(arena, r, opts) == st + il + " " + n + " -> " + t;
    FunctionHeaderShape(st, il, n, t);
  }

  lemma FunctionHeaderShape(st: string, il: string, n: string, t: string)
    ensures "{" + "Function" + "}" + (st + il + " " + n + " -> " + t)
         == "{Function}" + st + il + " " + n + " -> " + t
  {
  }

  /**
   * The header of every kind: CodeLine and Block show only their label;
   * Alias always shows its quoted name and quoted type; an Enum shows
   * " class" when scoped and its type only when one is linked; a Namespace
   * shows its (possibly qualified) name only when it has one; every other
   * kind shows its quoted name. An absent name is printed as "".
   */
  lemma HeaderFormsLaw(arena: seq<Record>, r: Record, opts: Options)
    requires IsRendered(r.kind)
    ensures r.kind == CodeLine || r.kind == Block ==> Header(arena, r, opts) == "{" + KindLabel(r.kind) + "}"
    ensures r.kind == Alias ==>
              Header(arena, r, opts)
              == "{" + KindLabel(r.kind) + "}" + (" " + Quote(NameText(r)) + " -> " + Quote(TypeText(arena, r, opts)))
    ensures r.kind == Enumeration ==>
              Header(arena, r, opts)
              == "{" + KindLabel(r.kind) + "}"
                 + ((if EnumClass in r.flags then " class" else "") + " " + Quote(NameText(r))
                    + (if Lookup(arena, r.typeLink).Some? then " -> " + Quote(TypeText(arena, r, opts)) else ""))
    ensures r.kind == Namespace ==>
              Header(arena, r, opts)
              == "{" + KindLabel(r.kind) + "}" + (if r.name.Some? then " " + Quote(DisplayName(arena, r, opts)) else "")
    ensures r.kind.Aggregate? || r.kind == CompileUnit || r.kind == TemplatePack || r.kind == Root || r.kind == Array ==>
              Header(arena, r, opts) == "{" + KindLabel(r.kind) + "}" + (" " + Quote(NameText(r)))
    ensures r.name.None? ==> NameText(r) == ""
    ensures Lookup(arena, r.typeLink).None? ==> TypeText(arena, r, opts) == ""
  {
  }

  /** The kinds without attribute lines render as their header alone. */
  lemma HeaderOnlyKinds(arena: seq<Record>, r: Record, opts: Options)
    requires r.kind == Alias || r.kind == Enumeration || r.kind == Namespace || r.kind == CompileUnit
          || r.kind == TemplatePack || r.kind == Root || r.kind == Array
    ensures AsText(arena, r, opts) == Header(arena, r, opts)
  {
    assert TextLines(arena, r, opts) == [Header(arena, r, opts)];
  }

  /** `[text]` when flag `f` is set, else nothing. */
  function Shown(flags: set<Flag>, f: Flag, text: string): seq<string> {
    if f in flags then [text] else []
  }

  /** The labels of the set code-line flags, written out in the fixed order. */
  function SetLineFlagLabels(flags: set<Flag>): seq<string> {
    Shown(flags, NewStatement, "NewStatement")
    + Shown(flags, PrologueEnd, "PrologueEnd")
    + Shown(flags, EndSequence, "EndSequence")
    + Shown(flags, BasicBlock, "BasicBlock")
    + Shown(flags, Discriminator, "Discriminator")
    + Shown(flags, EpilogueBegin, "EpilogueBegin")
  }

  /**
   * With code-line attributes on, a code line shows one attribute line per
   * set flag, in the fixed order NewStatement, PrologueEnd, EndSequence,
   * BasicBlock, Discriminator, EpilogueBegin, whatever order they were set in.
   */
  lemma CodeLineLabelsInFixedOrder(arena: seq<Record>, r: Record, opts: Options)
    requires r.kind == CodeLine && opts.printCodelineAttributes
    ensures AttributeLabels(arena, r, opts) == SetLineFlagLabels(r.flags)
    ensures TextLines(arena, r, opts)
         == ["{" + KindLabel(r.kind) + "}"] + AttributeLines(SetLineFlagLabels(r.flags), r.level, opts)
  {
    FixedOrderUnfold(r.flags);
    var head := "{" + KindLabel(r.kind) + "}";
    assert HeaderTail(arena, r, opts) == "";
    assert head + "" == head;
  }

  lemma FlagLabelsCons(x: Flag, rest: seq<Flag>, flags: set<Flag>)
    ensures FlagLabels([x] + rest, flags) == Shown(flags, x, LineFlagLabel(x)) + FlagLabels(rest, flags)
  {
    assert ([x] + rest)[1..] == rest;
  }

  lemma FixedOrderUnfold(flags: set<Flag>)
    ensures FlagLabels(LineFlagOrder, flags) == SetLineFlagLabels(flags)
  {
    var o5: seq<Flag> := [EpilogueBegin];
    var o4 := [Discriminator] + o5;
    var o3 := [BasicBlock] + o4;
    var o2 := [EndSequence] + o3;
    var o1 := [PrologueEnd] + o2;
    var o0 := [NewStatement] + o1;
    assert o0 == LineFlagOrder;
    var a := Shown(flags, NewStatement, "NewStatement");
    var b := Shown(flags, PrologueEnd, "PrologueEnd");
    var c := Shown(flags, EndSequence, "EndSequence");
    var d := Shown(flags, BasicBlock, "BasicBlock");
    var e := Shown(flags, Discriminator, "Discriminator");
    var f := Shown(flags, EpilogueBegin, "EpilogueBegin");
    FlagLabelsCons(EpilogueBegin, [], flags);
    assert o5 == [EpilogueBegin] + [];
    assert FlagLabels(o5, flags) == f by { assert f + [] == f; }
    FlagLabelsCons(Discriminator, o5, flags);
    FlagLabelsCons(BasicBlock, o4, flags);
    FlagLabelsCons(EndSequence, o3, flags);
    FlagLabelsCons(PrologueEnd, o2, flags);
    FlagLabelsCons(NewStatement, o1, flags);
    assert FlagLabels(o0, flags) == a + (b + (c + (d + (e + f))));
    ConcatAssoc6(a, b, c, d, e, f);
  }

  lemma ConcatAssoc6(a: seq<string>, b: seq<string>, c: seq<string>, d: seq<string>, e: seq<string>, f: seq<string>)
    ensures a + (b + (c + (d + (e + f)))) == a + b + c + d + e + f
  {
  }
}
