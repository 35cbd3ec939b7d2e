/**
 * The LibScopeView record model: one closed union of record kinds sharing a
 * common attribute substrate, stored in an arena where the parent, type and
 * reference links are indices into the same arena (never owning).
 */
module ScopeModel {
  import opened Wrappers
  import opened Strings

  /** The sub-tag of an aggregate; default inheritance access depends on it. */
  datatype AggregateTag = ClassTag | StructTag | UnionTag

  /** C++ inheritance access of a TypeImport; Unspecified is resolved by the deriving aggregate. */
  datatype Access = Public | Protected | Private | Unspecified

  /** What a template argument (TypeParam) carries. */
  datatype ParamKind =
    | TypeArgument       // a linked type; its name is printed quoted
    | ValueArgument      // a literal value; printed as a bare token
    | TemplateArgument   // a template-template name; printed quoted

  /** Every kind of record: a code line, the scope kinds, the type-usage kinds. */
  datatype Kind =
    | CodeLine
    | Alias
    | Array
    | Block
    | Aggregate(tag: AggregateTag)
    | CompileUnit
    | Enumeration
    | Function
    | InlinedFunction
    | Namespace
    | Root
    | TemplatePack
    | TypeRef
    | TypeImport(access: Access)
    | TypeEnumerator(value: string)
    | TypeParam(param: ParamKind, value: string)

  /** The boolean attributes; a record's flags only ever grow. */
  datatype Flag =
    // code-line flags, in the order both renderers list them
    | NewStatement | PrologueEnd | EndSequence | BasicBlock | Discriminator | EpilogueBegin
    // block flags
    | TryBlock | CatchBlock
    // aggregate and function flags
    | Template | Static | DeclaredInline | Inlined | Declaration
    // enumeration flag: a scoped `enum class`
    | EnumClass

  /** The six code-line flags in their fixed rendering order. */
  const LineFlagOrder: seq<Flag> :=
    [NewStatement, PrologueEnd, EndSequence, BasicBlock, Discriminator, EpilogueBegin]

  /** No code-line flag appears twice in the fixed order. */
  lemma LineFlagOrderDistinct(k: nat)
    requires k < |LineFlagOrder|
    ensures forall j :: 0 <= j < |LineFlagOrder| && j != k ==> LineFlagOrder[j] != LineFlagOrder[k]
  {
  }

  /** The label a code-line flag has in text and its key in YAML. */
  function LineFlagLabel(f: Flag): string {
    match f
    case NewStatement => "NewStatement"
    case PrologueEnd => "PrologueEnd"
    case EndSequence => "EndSequence"
    case BasicBlock => "BasicBlock"
    case Discriminator => "Discriminator"
    case EpilogueBegin => "EpilogueBegin"
    case _ => ""
  }

  /**
   * One record. `line`, `file`, `offset`, `tag` and `name` are optional;
   * `invalidFile` marks a file name known to be unusable (rendered "?");
   * `qualifiedName` is an authored or resolved prefix, used only while
   * `hasQualifiedName` is set; `level` is the nesting depth fixed at creation.
   */
  datatype Record = Record(
    kind: Kind,
    level: nat,
    line: Option<nat>,
    file: Option<string>,
    invalidFile: bool,
    offset: Option<nat>,
    tag: Option<string>,
    name: Option<string>,
    qualifiedName: string,
    hasQualifiedName: bool,
    flags: set<Flag>,
    parent: Option<nat>,
    typeLink: Option<nat>,
    reference: Option<nat>,
    children: seq<nat>)

  /** A freshly constructed record: only its kind and level are known. */
  function NewRecord(kind: Kind, level: nat): (r: Record)
    ensures r.kind == kind && r.level == level
    ensures r.line.None? && r.file.None? && !r.invalidFile && r.offset.None? && r.tag.None?
    ensures r.name.None? && !r.hasQualifiedName && r.flags == {}
    ensures r.parent.None? && r.typeLink.None? && r.reference.None? && r.children == []
  {
    Record(kind, level, None, None, false, None, None, None, "", false, {}, None, None, None, [])
  }

  /** The rendering options, passed explicitly to the text renderer. */
  datatype Options = Options(
    indentation: bool,
    printCodelineAttributes: bool,
    printBlockAttributes: bool,
    qualifiedName: bool,
    fileName: bool)

  /** Follows one link; a dangling index reads as an absent link. */
  function Lookup(arena: seq<Record>, link: Option<nat>): (r: Option<Record>)
    ensures r.Some? <==> link.Some? && link.value < |arena|
    ensures r.Some? ==> r.value == arena[link.value]
  {
    if link.Some? && link.value < |arena| then Some(arena[link.value]) else None
  }

  predicate IsScope(k: Kind) {
    !(k.CodeLine? || k.TypeRef? || k.TypeImport? || k.TypeEnumerator? || k.TypeParam?)
  }

  /** The kinds that render themselves; type usages appear only through their owners and users. */
  predicate IsRendered(k: Kind) {
    !(k.TypeRef? || k.TypeImport? || k.TypeEnumerator? || k.TypeParam?)
  }

  /** The label between braces in a text header and the value of YAML's `object` key. */
  function KindLabel(k: Kind): (l: string)
    requires IsRendered(k)
    ensures l == "Function" <==> k.Function? || k.InlinedFunction?
    ensures l == "Enum" <==> k.Enumeration?
    ensures l == "InputFile" <==> k.Root?
    ensures l == "TemplateParameter" <==> k.TemplatePack?
  {
    match k
    case CodeLine => "CodeLine"
    case Alias => "Alias"
    case Array => "Array"
    case Block => "Block"
    case Aggregate(ClassTag) => "Class"
    case Aggregate(StructTag) => "Struct"
    case Aggregate(UnionTag) => "Union"
    case CompileUnit => "CompileUnit"
    case Enumeration => "Enum"
    case Function => "Function"
    case InlinedFunction => "Function"
    case Namespace => "Namespace"
    case Root => "InputFile"
    case TemplatePack => "TemplateParameter"
  }

  /** False for the kinds an enclosing tree walk does not print as objects. */
  predicate IsPrintedAsObject(k: Kind) {
    !(k.Array? || k.Root?)
  }

  /** The two kinds left out of an enclosing walk are exactly those labelled Array and InputFile. */
  lemma UnprintedKindsLaw(k: Kind)
    requires IsRendered(k)
    ensures !IsPrintedAsObject(k) <==> KindLabel(k) == "Array" || KindLabel(k) == "InputFile"
  {
  }

  /** The name, or the empty string when it is absent. */
  function NameText(r: Record): string {
    r.name.GetOr("")
  }

  /** A linked type's name with its authored prefix, when the prefix is to be shown. */
  function PrefixedName(t: Record, withPrefix: bool): (s: string)
    ensures !(withPrefix && t.hasQualifiedName) ==> s == NameText(t)
    ensures withPrefix && t.hasQualifiedName ==> s == t.qualifiedName + NameText(t)
  {
    (if withPrefix && t.hasQualifiedName then t.qualifiedName else "") + NameText(t)
  }

  // ---------------------------------------------------------- inheritance

  /**
   * The access an inheritance edge has: an explicit specifier stands, an
   * unspecified one is private under a class and public otherwise.
   */
  function EffectiveAccess(a: Access, derived: AggregateTag): (r: Access)
    ensures r != Unspecified
    ensures a != Unspecified ==> r == a
    ensures a == Unspecified ==> (r == Private <==> derived == ClassTag)
    ensures a == Unspecified ==> (r == Public <==> derived != ClassTag)
  {
    if a != Unspecified then a
    else if derived == ClassTag then Private
    else Public
  }

  function AccessText(a: Access): string {
    match a
    case Public => "public"
    case Protected => "protected"
    case Private => "private"
    case Unspecified => ""
  }

  // ------------------------------------------------------- qualified names

  /**
   * The qualification prefix contributed by the parent chain starting at
   * `parent`: each ancestor's name followed by "::", outermost first. The walk
   * stops at a missing parent or at the Root; an ancestor that has a prefix of
   * its own contributes that prefix verbatim and ends the walk. At most `fuel`
   * ancestors are visited.
   */
  function ParentPrefix(arena: seq<Record>, parent: Option<nat>, fuel: nat): string
    decreases fuel
  {
    match Lookup(arena, parent)
    case None => ""
    case Some(p) =>
      if p.kind.Root? || fuel == 0 then ""
      else if p.hasQualifiedName then p.qualifiedName + NameText(p) + "::"
      else ParentPrefix(arena, p.parent, fuel - 1) + NameText(p) + "::"
  }

  /** The prefix of record `r` in `arena`; the walk visits at most |arena| ancestors. */
  function QualifiedPrefix(arena: seq<Record>, r: Record): string {
    ParentPrefix(arena, r.parent, |arena|)
  }

  /**
   * The ancestors the walk of ParentPrefix passes through without stopping
   * at a stored prefix, innermost first (the immediate parent first).
   */
  function AncestorChain(arena: seq<Record>, parent: Option<nat>, fuel: nat): (c: seq<nat>)
    ensures |c| <= fuel
    ensures forall k :: 0 <= k < |c| ==> c[k] < |arena|
    ensures |c| > 0 ==> parent == Some(c[0])
    decreases fuel
  {
    match Lookup(arena, parent)
    case None => []
    case Some(p) =>
      if p.kind.Root? || fuel == 0 || p.hasQualifiedName then []
      else [parent.value] + AncestorChain(arena, p.parent, fuel - 1)
  }

  /**
   * Each record of the chain is the parent of the one before it, and none of
   * them is the Root or carries a stored prefix.
   */
  lemma {:induction false} AncestorChainLinks(arena: seq<Record>, parent: Option<nat>, fuel: nat, k: nat)
    requires k < |AncestorChain(arena, parent, fuel)|
    ensures var c := AncestorChain(arena, parent, fuel);
      && !arena[c[k]].kind.Root? && !arena[c[k]].hasQualifiedName
      && (k + 1 < |c| ==> arena[c[k]].parent == Some(c[k + 1]))
    decreases fuel
  {
    var p := arena[parent.value];
    if k > 0 {
      AncestorChainLinks(arena, p.parent, fuel - 1, k - 1);
    }
  }

  /** The link the walk follows after the chain `c`: the parent of its last record, or `parent` itself. */
  function NextLink(arena: seq<Record>, parent: Option<nat>, c: seq<nat>): Option<nat>
    requires forall k :: 0 <= k < |c| ==> c[k] < |arena|
  {
    if |c| == 0 then parent else arena[c[|c| - 1]].parent
  }

  /** The walk stops at `link`: it names no record, or the Root, or a record with a stored prefix. */
  predicate StopsAt(arena: seq<Record>, link: Option<nat>) {
    var p := Lookup(arena, link);
    p.None? || p.value.kind.Root? || p.value.hasQualifiedName
  }

  /**
   * Unless the fuel ran out, the chain ends where the walk must stop, and the
   * base is the stored prefix of the record it stopped at, if any.
   */
  lemma {:induction false} ChainStopsAtOutermost(arena: seq<Record>, parent: Option<nat>, fuel: nat)
    ensures var c := AncestorChain(arena, parent, fuel);
            var next := NextLink(arena, parent, c);
            var p := Lookup(arena, next);
            |c| < fuel ==>
              && StopsAt(arena, next)
              && ChainBase(arena, parent, fuel)
                 == (if p.Some? && !p.value.kind.Root? && p.value.hasQualifiedName
                     then p.value.qualifiedName + NameText(p.value) + "::" else "")
    decreases fuel
  {
    match Lookup(arena, parent)
    case None =>
    case Some(p) =>
      if !(p.kind.Root? || fuel == 0 || p.hasQualifiedName) {
        var c := AncestorChain(arena, parent, fuel);
        var rest := AncestorChain(arena, p.parent, fuel - 1);
        assert c == [parent.value] + rest;
        ChainStopsAtOutermost(arena, p.parent, fuel - 1);
        assert NextLink(arena, parent, c) == NextLink(arena, p.parent, rest);
      }
  }

  /** `c` lists records each of which is the parent of the one before it. */
  predicate IsParentPath(arena: seq<Record>, c: seq<nat>) {
    && (forall k :: 0 <= k < |c| ==> c[k] < |arena|)
    && (forall k :: 0 <= k < |c| - 1 ==> arena[c[k]].parent == Some(c[k + 1]))
  }

  predicate Distinct(c: seq<nat>) {
    forall a, b :: 0 <= a < b < |c| ==> c[a] != c[b]
  }

  /** No record is its own ancestor: every walk along parent links visits distinct records. */
  ghost predicate Acyclic(arena: seq<Record>) {
    forall c :: IsParentPath(arena, c) ==> Distinct(c)
  }

  /** Pairwise different numbers below `n` are at most `n` many. */
  lemma {:induction false} DistinctBound(c: seq<nat>, n: nat)
    requires Distinct(c) && forall k :: 0 <= k < |c| ==> c[k] < n
    ensures |c| <= n
    decreases n
  {
    if |c| > 0 {
      assert n > 0 by { assert c[0] < n; }
      if j :| 0 <= j < |c| && c[j] == n - 1 {
        var d := c[..j] + c[j + 1..];
        assert forall a :: 0 <= a < |d| ==> d[a] == (if a < j then c[a] else c[a + 1]);
        forall a, b | 0 <= a < b < |d|
          ensures d[a] != d[b]
        {
          var ia := if a < j then a else a + 1;
          var ib := if b < j then b else b + 1;
          assert ia < ib && d[a] == c[ia] && d[b] == c[ib];
        }
        forall a | 0 <= a < |d|
          ensures d[a] < n - 1
        {
          var ia := if a < j then a else a + 1;
          assert ia != j && d[a] == c[ia];
        }
        DistinctBound(d, n - 1);
      } else {
        DistinctBound(c, n - 1);
      }
    }
  }

  /** The ancestor chain of any walk is a parent path. */
  lemma AncestorChainIsPath(arena: seq<Record>, parent: Option<nat>, fuel: nat)
    ensures IsParentPath(arena, AncestorChain(arena, parent, fuel))
  {
    var c := AncestorChain(arena, parent, fuel);
    forall k | 0 <= k < |c| - 1
      ensures arena[c[k]].parent == Some(c[k + 1])
    {
      AncestorChainLinks(arena, parent, fuel, k);
    }
  }

  /**
   * With acyclic parent links, the walk from a record of the arena never runs
   * out of fuel: it goes on to the outermost ancestor, stopping only where the
   * parent is absent, is the Root, or has a stored prefix.
   */
  lemma WalkReachesOutermost(arena: seq<Record>, i: nat)
    requires Acyclic(arena) && i < |arena|
    ensures var c := AncestorChain(arena, arena[i].parent, |arena|);
            |c| < |arena| && StopsAt(arena, NextLink(arena, arena[i].parent, c))
  {
    var c := AncestorChain(arena, arena[i].parent, |arena|);
    AncestorChainIsPath(arena, arena[i].parent, |arena|);
    var whole := [i] + c;
    assert IsParentPath(arena, whole) by {
      forall k | 0 <= k < |whole| - 1
        ensures arena[whole[k]].parent == Some(whole[k + 1])
      {
        if k > 0 {
          assert whole[k] == c[k - 1] && whole[k + 1] == c[k];
        }
      }
    }
    DistinctBound(whole, |arena|);
    ChainStopsAtOutermost(arena, arena[i].parent, |arena|);
  }

  /** Names each followed by "::", in the order given. */
  function JoinScopes(names: seq<string>): string {
    if |names| == 0 then ""
    else JoinScopes(names[..|names| - 1]) + names[|names| - 1] + "::"
  }

  /** The names of a chain of records, outermost (last in the chain) first. */
  function OuterFirstNames(arena: seq<Record>, chain: seq<nat>): (ns: seq<string>)
    requires forall k :: 0 <= k < |chain| ==> chain[k] < |arena|
    ensures |ns| == |chain|
    ensures forall k :: 0 <= k < |chain| ==> ns[k] == NameText(arena[chain[|chain| - 1 - k]])
  {
    if |chain| == 0 then []
    else OuterFirstNames(arena, chain[1..]) + [NameText(arena[chain[0]])]
  }

  /** The stored prefix of the record the walk stopped at, or "" when it stopped otherwise. */
  function ChainBase(arena: seq<Record>, parent: Option<nat>, fuel: nat): string
    decreases fuel
  {
    match Lookup(arena, parent)
    case None => ""
    case Some(p) =>
      if p.kind.Root? || fuel == 0 then ""
      else if p.hasQualifiedName then p.qualifiedName + NameText(p) + "::"
      else ChainBase(arena, p.parent, fuel - 1)
  }

  lemma OuterFirstNamesCons(arena: seq<Record>, x: nat, c: seq<nat>)
    requires x < |arena| && forall k :: 0 <= k < |c| ==> c[k] < |arena|
    ensures OuterFirstNames(arena, [x] + c) == OuterFirstNames(arena, c) + [NameText(arena[x])]
  {
    assert ([x] + c)[1..] == c;
  }

  lemma ConcatAssoc(a: string, b: string, c: string, d: string)
    ensures a + b + c + d == a + (b + c + d)
  {
  }

  lemma JoinScopesSnoc(ns: seq<string>, n: string)
    ensures JoinScopes(ns + [n]) == JoinScopes(ns) + n + "::"
  {
    assert (ns + [n])[..|ns|] == ns;
  }

  /**
   * The prefix is every ancestor's name joined with "::", outermost first,
   * after whatever stored prefix stopped the walk.
   */
  lemma {:induction false} PrefixIsOuterFirstJoin(arena: seq<Record>, parent: Option<nat>, fuel: nat)
    ensures ParentPrefix(arena, parent, fuel)
         == ChainBase(arena, parent, fuel)
            + JoinScopes(OuterFirstNames(arena, AncestorChain(arena, parent, fuel)))
    decreases fuel
  {
    var lk := Lookup(arena, parent);
    if lk.Some? {
      var p := lk.value;
      if !(p.kind.Root? || fuel == 0 || p.hasQualifiedName) {
        var c := AncestorChain(arena, p.parent, fuel - 1);
        var whole := [parent.value] + c;
        var base := ChainBase(arena, p.parent, fuel - 1);
        var inner := OuterFirstNames(arena, c);
        assert AncestorChain(arena, parent, fuel) == whole;
        assert ChainBase(arena, parent, fuel) == base;
        calc {
          ParentPrefix(arena, parent, fuel);
          ParentPrefix(arena, p.parent, fuel - 1) + NameText(p) + "::";
          { PrefixIsOuterFirstJoin(arena, p.parent, fuel - 1); }
          base + JoinScopes(inner) + NameText(p) + "::";
          { ConcatAssoc(base, JoinScopes(inner), NameText(p), "::"); }
          base + (JoinScopes(inner) + NameText(p) + "::");
          { JoinScopesSnoc(inner, NameText(p)); }
          base + JoinScopes(inner + [NameText(p)]);
          { OuterFirstNamesCons(arena, parent.value, c); }
          base + JoinScopes(OuterFirstNames(arena, whole));
        }
      } else {
        assert AncestorChain(arena, parent, fuel) == [];
        assert ChainBase(arena, parent, fuel) == ParentPrefix(arena, parent, fuel);
      }
    } else {
      assert AncestorChain(arena, parent, fuel) == [];
    }
  }

  /**
   * Computes ParentPrefix by walking outward from `parent` and prepending each
   * ancestor's name, as resolveName does before storing the result.
   */
  method ComputePrefix(arena: seq<Record>, parent: Option<nat>) returns (prefix: string)
    ensures prefix == ParentPrefix(arena, parent, |arena|)
  {
    var cur := parent;
    var fuel: nat := |arena|;
    var acc := "";
    var done := false;
    while !done
      invariant ParentPrefix(arena, parent, |arena|)
             == (if done then "" else ParentPrefix(arena, cur, fuel)) + acc
      decreases (if done then 0 else 1), fuel
    {
      match Lookup(arena, cur)
      case None =>
        done := true;
      case Some(p) =>
        if p.kind.Root? || fuel == 0 {
          done := true;
        } else if p.hasQualifiedName {
          acc := p.qualifiedName + NameText(p) + "::" + acc;
          done := true;
        } else {
          acc := NameText(p) + "::" + acc;
          cur := p.parent;
          fuel := fuel - 1;
        }
    }
    prefix := acc;
  }
}
