/**
 * Records built step by step the way the unit tests build them, with the
 * values those tests expect.
 */
module ScopeScenarios {
  import opened Wrappers
  import opened Strings
  import opened ScopeModel
  import opened ScopeStore
  import TextView

  /** The offset of the class test renders in lower case. */
  lemma HexExample()
    ensures HexOffset(0xD3ADB33F) == "0xd3adb33f"
  {
  }

  /**
   * A function "qaz" inside namespace TestNamespace inside namespace
   * BaseNamespace: resolving its name stores the two enclosing names.
   */
  method QualifiedFunctionExample() returns (prefix: string)
    ensures prefix == "BaseNamespace" + "::" + "TestNamespace" + "::"
  {
    var a := new Arena();
    var fn := a.Add(Function, 0);
    a.SetName(fn, "qaz");
    var ns := a.Add(Namespace, 0);
    a.SetName(ns, "TestNamespace");
    a.SetParent(fn, ns);
    var ns2 := a.Add(Namespace, 0);
    a.SetName(ns2, "BaseNamespace");
    a.SetParent(ns, ns2);
    ghost var rs := a.records;
    assert |rs| == 3 && rs[fn].parent == Some(ns) && rs[ns].parent == Some(ns2) && rs[ns2].parent.None?;
    assert ParentPrefix(rs, Some(ns2), 2) == "" + "BaseNamespace" + "::";
    assert ParentPrefix(rs, Some(ns), 3) == ParentPrefix(rs, Some(ns2), 2) + "TestNamespace" + "::";
    a.ResolveName(fn);
    prefix := a.records[fn].qualifiedName;
  }

  /**
   * The same function with return type "wsx", rendered under the
   * qualified-name option: the header shows the whole chain of namespaces.
   */
  method QualifiedFunctionHeaderExample() returns (header: string)
    ensures header == "{Function}" + " " + Quote("BaseNamespace" + "::" + "TestNamespace" + "::" + "qaz") + " -> " + Quote("wsx")
  {
    var a := NestedFunctionArena();
    var opts := Options(false, false, false, true, false);
    QualifiedHeaderOfNestedFunction(a.records, opts);
    header := TextView.Header(a.records, a.records[0], opts);
  }

  /** Function "qaz" returning "wsx", inside TestNamespace, inside BaseNamespace, built with the setters. */
  method NestedFunctionArena() returns (a: Arena)
    ensures fresh(a) && a.Valid()
    ensures |a.records| == 4
    ensures a.records[0].kind == Function && a.records[0].name == Some("qaz") && a.records[0].flags == {}
    ensures a.records[0].parent == Some(2) && a.records[0].typeLink == Some(1)
    ensures a.records[1].name == Some("wsx") && !a.records[1].hasQualifiedName
    ensures a.records[2].kind == Namespace && a.records[2].name == Some("TestNamespace")
    ensures a.records[2].parent == Some(3) && !a.records[2].hasQualifiedName
    ensures a.records[3].kind == Namespace && a.records[3].name == Some("BaseNamespace")
    ensures a.records[3].parent.None? && !a.records[3].hasQualifiedName
  {
    a := FunctionReturning("qaz", "wsx");
    ghost var fnRec := a.records[0];
    var ns := a.Add(Namespace, 0);
    a.SetName(ns, "TestNamespace");
    a.SetParent(0, ns);
    var ns2 := a.Add(Namespace, 0);
    a.SetName(ns2, "BaseNamespace");
    a.SetParent(ns, ns2);
    assert a.records[0] == fnRec.(parent := Some(2));
  }

  /** A function named `name` whose type link is a type named `ty`, built with the setters. */
  method FunctionReturning(name: string, ty: string) returns (a: Arena)
    ensures fresh(a) && a.Valid()
    ensures |a.records| == 2
    ensures a.records[0].kind == Function && a.records[0].name == Some(name) && a.records[0].flags == {}
    ensures a.records[0].parent.None? && a.records[0].typeLink == Some(1)
    ensures a.records[1].name == Some(ty) && !a.records[1].hasQualifiedName
  {
    a := new Arena();
    var fn := a.Add(Function, 0);
    a.SetName(fn, name);
    var t := a.Add(TypeRef, 0);
    a.SetName(t, ty);
    a.SetType(fn, t);
  }

  /** The header of record 0 of a four-record arena laid out as in the example above. */
  lemma QualifiedHeaderOfNestedFunction(rs: seq<Record>, opts: Options)
    requires |rs| == 4 && opts.qualifiedName
    requires rs[0].kind == Function && rs[0].name == Some("qaz") && rs[0].flags == {}
    requires rs[0].parent == Some(2) && rs[0].typeLink == Some(1)
    requires rs[1].name == Some("wsx") && !rs[1].hasQualifiedName
    requires rs[2].kind == Namespace && rs[2].name == Some("TestNamespace") && rs[2].parent == Some(3) && !rs[2].hasQualifiedName
    requires rs[3].kind == Namespace && rs[3].name == Some("BaseNamespace") && rs[3].parent.None? && !rs[3].hasQualifiedName
    ensures TextView.Header(rs, rs[0], opts)
         == "{Function}" + " " + Quote("BaseNamespace" + "::" + "TestNamespace" + "::" + "qaz") + " -> " + Quote("wsx")
  {
    var base := ParentPrefix(rs, Some(3), 3);
    assert base == "" + "BaseNamespace" + "::";
    assert ParentPrefix(rs, Some(2), 4) == base + "TestNamespace" + "::";
    TextView.FunctionHeaderLaw(rs, rs[0], opts);
    HeaderAssembly("BaseNamespace", "TestNamespace", "qaz", "wsx");
  }

  lemma HeaderAssembly(outer: string, inner: string, name: string, ty: string)
    ensures "{Function}" + "" + "" + " " + Quote(("" + outer + "::") + inner + "::" + name) + " -> " + Quote(ty)
         == "{Function}" + " " + Quote(outer + "::" + inner + "::" + name) + " -> " + Quote(ty)
  {
    assert ("" + outer + "::") + inner + "::" + name == outer + "::" + inner + "::" + name;
  }
}
