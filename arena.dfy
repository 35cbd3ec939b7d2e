/**
 * The record store. Records are created by kind and level and then populated
 * one setter call at a time: attributes are overwritten, flags are only ever
 * added, children are only ever appended, and the parent, type and reference
 * links are rewired freely. Every link is an index into the same arena.
 */
module ScopeStore {
  import opened Wrappers
  import opened ScopeModel

  predicate LinkInRange(link: Option<nat>, n: nat) {
    link.None? || link.value < n
  }

  /** Every link and every child index names a record of the arena. */
  predicate LinksInRange(rs: seq<Record>) {
    forall i :: 0 <= i < |rs| ==>
      && LinkInRange(rs[i].parent, |rs|)
      && LinkInRange(rs[i].typeLink, |rs|)
      && LinkInRange(rs[i].reference, |rs|)
      && (forall a :: 0 <= a < |rs[i].children| ==> rs[i].children[a] < |rs|)
  }

  /** No record is owned twice: child positions name pairwise different records. */
  predicate SingleOwner(rs: seq<Record>) {
    forall i, j, a, b ::
      0 <= i < |rs| && 0 <= j < |rs| &&
      0 <= a < |rs[i].children| && 0 <= b < |rs[j].children| &&
      rs[i].children[a] == rs[j].children[b]
      ==> i == j && a == b
  }

  /** Record `c` already has an owner. */
  predicate Owned(rs: seq<Record>, c: nat) {
    exists i, a :: 0 <= i < |rs| && 0 <= a < |rs[i].children| && rs[i].children[a] == c
  }

  class Arena {
    var records: seq<Record>

    ghost predicate Valid()
      reads this
    {
      LinksInRange(records) && SingleOwner(records)
    }

    constructor ()
      ensures Valid() && records == []
    {
      records := [];
    }

    /** Creates a record of the given kind at the given nesting level. */
    method Add(kind: Kind, level: nat) returns (i: nat)
      requires Valid()
      modifies this
      ensures Valid()
      ensures i == |old(records)| && records == old(records) + [NewRecord(kind, level)]
    {
      i := |records|;
      records := records + [NewRecord(kind, level)];
    }

    method SetName(i: nat, name: string)
      requires Valid() && i < |records|
      modifies this
      ensures Valid()
      ensures records == old(records)[i := old(records)[i].(name := Some(name))]
    {
      records := records[i := records[i].(name := Some(name))];
    }

    method SetLineNumber(i: nat, line: nat)
      requires Valid() && i < |records|
      modifies this
      ensures Valid()
      ensures records == old(records)[i := old(records)[i].(line := Some(line))]
    {
      records := records[i := records[i].(line := Some(line))];
    }

    method SetFileName(i: nat, file: string)
      requires Valid() && i < |records|
      modifies this
      ensures Valid()
      ensures records == old(records)[i := old(records)[i].(file := Some(file))]
    {
      records := records[i := records[i].(file := Some(file))];
    }

    /** Marks the file name unusable; the name itself is kept. */
    method SetInvalidFileName(i: nat)
      requires Valid() && i < |records|
      modifies this
      ensures Valid()
      ensures records == old(records)[i := old(records)[i].(invalidFile := true)]
    {
      records := records[i := records[i].(invalidFile := true)];
    }

    method SetOffset(i: nat, offset: nat)
      requires Valid() && i < |records|
      modifies this
      ensures Valid()
      ensures records == old(records)[i := old(records)[i].(offset := Some(offset))]
    {
      records := records[i := records[i].(offset := Some(offset))];
    }

    method SetTag(i: nat, tag: string)
      requires Valid() && i < |records|
      modifies this
      ensures Valid()
      ensures records == old(records)[i := old(records)[i].(tag := Some(tag))]
    {
      records := records[i := records[i].(tag := Some(tag))];
    }

    /** Stores an authored qualification prefix, shown once HasQualifiedName is set. */
    method SetQualifiedName(i: nat, prefix: string)
      requires Valid() && i < |records|
      modifies this
      ensures Valid()
      ensures records == old(records)[i := old(records)[i].(qualifiedName := prefix)]
    {
      records := records[i := records[i].(qualifiedName := prefix)];
    }

    method SetHasQualifiedName(i: nat)
      requires Valid() && i < |records|
      modifies this
      ensures Valid()
      ensures records == old(records)[i := old(records)[i].(hasQualifiedName := true)]
    {
      records := records[i := records[i].(hasQualifiedName := true)];
    }

    /** Sets one flag; no flag is ever cleared. */
    method SetFlag(i: nat, f: Flag)
      requires Valid() && i < |records|
      modifies this
      ensures Valid()
      ensures records == old(records)[i := old(records)[i].(flags := old(records)[i].flags + {f})]
      ensures old(records)[i].flags <= records[i].flags
    {
      records := records[i := records[i].(flags := records[i].flags + {f})];
    }

    method SetParent(i: nat, parent: nat)
      requires Valid() && i < |records| && parent < |records|
      modifies this
      ensures Valid()
      ensures records == old(records)[i := old(records)[i].(parent := Some(parent))]
    {
      records := records[i := records[i].(parent := Some(parent))];
    }

    method SetType(i: nat, ty: nat)
      requires Valid() && i < |records| && ty < |records|
      modifies this
      ensures Valid()
      ensures records == old(records)[i := old(records)[i].(typeLink := Some(ty))]
    {
      records := records[i := records[i].(typeLink := Some(ty))];
    }

    /** Links a function to its out-of-line declaration (or definition) counterpart. */
    method SetReference(i: nat, reference: nat)
      requires Valid() && i < |records| && reference < |records|
      modifies this
      ensures Valid()
      ensures records == old(records)[i := old(records)[i].(reference := Some(reference))]
    {
      records := records[i := records[i].(reference := Some(reference))];
    }

    /** The access specifier of an inheritance edge. */
    method SetInheritanceAccess(i: nat, access: Access)
      requires Valid() && i < |records| && records[i].kind.TypeImport?
      modifies this
      ensures Valid()
      ensures records == old(records)[i := old(records)[i].(kind := TypeImport(access))]
    {
      records := records[i := records[i].(kind := TypeImport(access))];
    }

    /** The literal value of an enumerator or a template argument. */
    method SetValue(i: nat, value: string)
      requires Valid() && i < |records|
      requires records[i].kind.TypeEnumerator? || records[i].kind.TypeParam?
      modifies this
      ensures Valid()
      ensures records == old(records)[i := old(records)[i].(kind := old(records)[i].kind.(value := value))]
    {
      records := records[i := records[i].(kind := records[i].kind.(value := value))];
    }

    /** Appends `child` to the children of scope `owner`, which becomes its only owner. */
    method AddChild(owner: nat, child: nat)
      requires Valid() && owner < |records| && child < |records|
      requires IsScope(records[owner].kind) && child != owner
      requires !Owned(records, child)
      modifies this
      ensures Valid()
      ensures records == old(records)[owner := old(records)[owner].(children := old(records)[owner].children + [child])]
      ensures Owned(records, child)
    {
      var rs := records;
      var updated := rs[owner := rs[owner].(children := rs[owner].children + [child])];
      forall i, j, a, b |
        0 <= i < |updated| && 0 <= j < |updated| &&
        0 <= a < |updated[i].children| && 0 <= b < |updated[j].children| &&
        updated[i].children[a] == updated[j].children[b]
        ensures i == j && a == b
      {
        var last := |rs[owner].children|;
        var x := updated[i].children[a];
        if x == child {
          assert i == owner && a == last;
          assert j == owner && b == last;
        } else {
          assert rs[i].children[a] == x && rs[j].children[b] == x;
        }
      }
      records := updated;
      assert records[owner].children[|records[owner].children| - 1] == child;
    }

    /** Stores the prefix given by the parent chain as the record's qualified name. */
    method ResolveName(i: nat)
      requires Valid() && i < |records|
      modifies this
      ensures Valid()
      ensures records == old(records)[i := old(records)[i].(
                qualifiedName := QualifiedPrefix(old(records), old(records)[i]),
                hasQualifiedName := true)]
    {
      var prefix := ComputePrefix(records, records[i].parent);
      records := records[i := records[i].(qualifiedName := prefix, hasQualifiedName := true)];
    }
  }
}
