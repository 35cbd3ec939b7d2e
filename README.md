# LibScopeView records and their two renderings

This project models the logical-view record model of DIVA's LibScopeView and
its two renderers, and proves properties of them.

- **Records.** The records are debug entities: code lines, the scope kinds
  (alias, array, block, class/struct/union aggregate, compile unit,
  enumeration, function and inlined function, namespace, root, template
  pack) and the type-usage kinds (type, inheritance edge, enumerator,
  template argument). They form one closed union `ScopeModel.Kind`.
- **Common attributes.** Every record carries the same attributes: optional
  line, file, offset, tag and name, an invalid-file marker, an authored
  qualification prefix, a nesting level and a set of flags. It also has
  parent, type and reference links and an ordered list of children.
- **Arena.** Records live in an arena (`ScopeStore.Arena`) and every link
  is an index into it. The arena is populated by setter calls that
  overwrite one attribute, add one flag, rewire one link or append one
  child.
- **Renderers.** `TextView.AsText` renders a record as a `{Kind}` header and
  its attribute lines. `YamlView.AsYAML` renders the fixed
  `object/name/type/source/dwarf/attributes` block. Both are pure
  functions of the record, the arena and, for text, an explicit
  `Options` value. The options are indentation, code-line attributes,
  block attributes, qualified names and file basename.
- **Helpers.** `ScopeModel.ParentPrefix` and the `ResolveName` method
  qualify names through the parent chain. `ScopeModel.EffectiveAccess`
  resolves the default inheritance access. `Strings.HexOffset` writes
  offsets in lower-case hex. `Strings.Basename` takes the last path
  component.

The behaviour follows the expectations written in the unit tests
`TestScope.cpp` and `TestLine.cpp`. The implementation headers are not part
of this model. Two choices follow directly from those expectations:

- **Type prefix in YAML.** The alias YAML test prints the linked type as
  `Class::foo<int, int>` once the type has an authored prefix, and no
  qualified-name option is set in that test (`TestScope.cpp:94-98`). So
  `AsYAML` always shows the prefix and takes no options. The text renderer
  shows it only under the option (`TestScope.cpp:57-65`).
- **Enumerator values.** The enumerator test sets the values "10" and "20"
  and expects them back as bare tokens (`TestScope.cpp:459-470`). The template
  test does the same with "101" (`TestScope.cpp:1066-1072`). A value is
  therefore modelled as a string printed unquoted.

Files:

- `wrappers.dfy`: `Option`.
- `strings.dfy`: numerals, quoting, line joining and splitting, basename.
- `records.dfy`: kinds, records, options, name qualification, access.
- `arena.dfy`: the record store class.
- `text_view.dfy`: the text renderer and its laws.
- `yaml_view.dfy`: the YAML renderer and its laws.
- `scenarios.dfy`: concrete test scenarios.

## Model

| member | source | states |
|---|---|---|
| Strings.DigitsRoundTrip | DIVA/UnitTests/src/TestLibScopeView/TestLine.cpp:52-64 | reading back the numeral written for any number in any base from 2 to 16 gives that number |
| Strings.Digits | DIVA/UnitTests/src/TestLibScopeView/TestLine.cpp:52-64 | a numeral is non-empty, uses only digits of its base, and starts with '0' exactly when the number is 0 (no leading zeros) |
| Strings.HexOffset | DIVA/UnitTests/src/TestLibScopeView/TestScope.cpp:258 | an offset is written as "0x" followed only by lower-case hex digits that read back as the offset, with no leading zero unless the offset is 0 |
| Strings.Basename | DIVA/UnitTests/src/TestLibScopeView/TestScope.cpp:596-603 | the basename is a suffix of the path that holds no '/' and, when shorter than the path, is preceded by '/' in it |
| Strings.SplitJoinRoundTrip | DIVA/UnitTests/src/TestLibScopeView/TestLine.cpp:88-107 | splitting the newline-joined fragment at its newlines gives back its lines when no line holds a newline |
| Strings.JoinLinesAppend | DIVA/UnitTests/src/TestLibScopeView/TestLine.cpp:91-107 | appending one more line to a fragment appends a newline and that line to its text |
| ScopeModel.NewRecord | DIVA/UnitTests/src/TestLibScopeView/TestScope.cpp:485-490 | a new record knows only its kind and level: every optional attribute is absent, no flag is set, no link and no child exists |
| ScopeModel.KindLabel | DIVA/UnitTests/src/TestLibScopeView/TestScope.cpp:398-420 | both function kinds are labelled Function, the enumeration Enum, the root InputFile and the template pack TemplateParameter, and no other kind shares these labels |
| ScopeModel.UnprintedKindsLaw | DIVA/UnitTests/src/TestLibScopeView/TestScope.cpp:1134-1137 | exactly the kinds labelled Array and InputFile (the root) are not printed as objects |
| ScopeModel.EffectiveAccess | DIVA/UnitTests/src/TestLibScopeView/TestScope.cpp:326-362 | an explicit access stands; an unspecified one is private under a class and public otherwise; the result is never unspecified |
| ScopeModel.AncestorChain | DIVA/UnitTests/src/TestLibScopeView/TestScope.cpp:504-522 | the ancestors the name walk visits start at the parent and are records of the arena |
| ScopeModel.AncestorChainLinks | DIVA/UnitTests/src/TestLibScopeView/TestScope.cpp:504-522 | each visited ancestor is the parent of the one before it |
| ScopeModel.OuterFirstNames | DIVA/UnitTests/src/TestLibScopeView/TestScope.cpp:513-522 | the names of the visited ancestors are listed outermost first |
| ScopeModel.PrefixIsOuterFirstJoin | DIVA/UnitTests/src/TestLibScopeView/TestScope.cpp:504-522 | the qualification prefix is every visited ancestor's name followed by "::", outermost first, after the prefix stored on the ancestor where the walk stopped |
| ScopeModel.ComputePrefix | DIVA/UnitTests/src/TestLibScopeView/TestScope.cpp:508-516 | the loop that walks the parent chain outward and prepends names computes exactly the qualification prefix |
| ScopeModel.ChainStopsAtOutermost | DIVA/UnitTests/src/TestLibScopeView/TestScope.cpp:504-522 | a walk that ends before its bound stops at an absent parent, at the root or at an ancestor with a stored prefix, and its base is that stored prefix followed by that ancestor's name |
| ScopeModel.WalkReachesOutermost | DIVA/UnitTests/src/TestLibScopeView/TestScope.cpp:504-522 | when parent links have no cycle, the walk from any record visits fewer ancestors than the arena holds, so it always reaches the outermost ancestor and the bound never cuts it short |
| ScopeStore.Arena.Add | DIVA/UnitTests/src/TestLibScopeView/TestScope.cpp:485-487 | a new record is appended at the next index and no other record changes |
| ScopeStore.Arena.SetName | DIVA/UnitTests/src/TestLibScopeView/TestScope.cpp:492 | sets the name of one record; nothing else changes |
| ScopeStore.Arena.SetLineNumber | DIVA/UnitTests/src/TestLibScopeView/TestLine.cpp:52 | sets the line of one record; nothing else changes |
| ScopeStore.Arena.SetFileName | DIVA/UnitTests/src/TestLibScopeView/TestLine.cpp:53 | sets the file of one record; nothing else changes |
| ScopeStore.Arena.SetInvalidFileName | DIVA/UnitTests/src/TestLibScopeView/TestScope.cpp:605-607 | marks one record's file invalid and keeps the file name; nothing else changes |
| ScopeStore.Arena.SetOffset | DIVA/UnitTests/src/TestLibScopeView/TestLine.cpp:54 | sets the offset of one record; nothing else changes |
| ScopeStore.Arena.SetTag | DIVA/UnitTests/src/TestLibScopeView/TestScope.cpp:153 | sets the tag of one record; nothing else changes |
| ScopeStore.Arena.SetQualifiedName | DIVA/UnitTests/src/TestLibScopeView/TestScope.cpp:57 | stores an authored prefix on one record; nothing else changes |
| ScopeStore.Arena.SetHasQualifiedName | DIVA/UnitTests/src/TestLibScopeView/TestScope.cpp:58 | turns the authored prefix of one record on; nothing else changes |
| ScopeStore.Arena.SetFlag | DIVA/UnitTests/src/TestLibScopeView/TestLine.cpp:133-183 | adds one flag to one record, so flags accumulate and are never cleared; nothing else changes |
| ScopeStore.Arena.SetParent | DIVA/UnitTests/src/TestLibScopeView/TestScope.cpp:507 | rewires one record's parent link to a record of the arena; nothing else changes |
| ScopeStore.Arena.SetType | DIVA/UnitTests/src/TestLibScopeView/TestScope.cpp:499 | rewires one record's type link; nothing else changes |
| ScopeStore.Arena.SetReference | DIVA/UnitTests/src/TestLibScopeView/TestScope.cpp:598 | links a function to its declaration counterpart; nothing else changes |
| ScopeStore.Arena.SetInheritanceAccess | DIVA/UnitTests/src/TestLibScopeView/TestScope.cpp:345 | sets the access of one inheritance edge; nothing else changes |
| ScopeStore.Arena.SetValue | DIVA/UnitTests/src/TestLibScopeView/TestScope.cpp:459-464 | sets the literal value of one enumerator or template argument; nothing else changes |
| ScopeStore.Arena.AddChild | DIVA/UnitTests/src/TestLibScopeView/TestScope.cpp:460-465 | appends the child at the end of the owner's children, keeps every link in range and every record owned at most once; nothing else changes |
| ScopeStore.Arena.ResolveName | DIVA/UnitTests/src/TestLibScopeView/TestScope.cpp:508-517 | stores the prefix given by the current parent chain as the record's qualified name and turns it on; nothing else changes |
| TextView.AsText | DIVA/UnitTests/src/TestLibScopeView/TestScope.cpp:126-141 | the text of a record starts with its header line |
| TextView.HeaderFormsLaw | DIVA/UnitTests/src/TestLibScopeView/TestScope.cpp:39-65 | the header of each kind group: code line and block show the label alone; an alias shows its quoted name and type; an enumeration adds " class" when flagged and its type only when linked; a namespace shows a name only when it has one; the other named kinds show their quoted name; an absent name or type prints as "" |
| TextView.HeaderOnlyKinds | DIVA/UnitTests/src/TestLibScopeView/TestScope.cpp:857-873 | alias, enumeration, namespace, compile unit, template pack, root and array render as their header line alone |
| TextView.HeaderNamesKind | DIVA/UnitTests/src/TestLibScopeView/TestScope.cpp:898-907 | the text of every rendered kind starts with its label between braces |
| TextView.FunctionHeaderLaw | DIVA/UnitTests/src/TestLibScopeView/TestScope.cpp:485-540 | both function kinds print the Function label, then " static", then " inline" when flagged, then the quoted name and type, each "" when absent |
| TextView.QualifiedNameLaw | DIVA/UnitTests/src/TestLibScopeView/TestScope.cpp:557-570 | with the qualified-name option off the bare name is shown; with it on the name follows every ancestor name joined with "::", outermost first |
| TextView.IndentationLaw | DIVA/UnitTests/src/TestLibScopeView/TestLine.cpp:80-84 | every attribute line is 15 blanks, or 15 + (level + 1) * 2 blanks under indentation, then "- " and its label |
| TextView.CodeLineWithoutAttributes | DIVA/UnitTests/src/TestLibScopeView/TestLine.cpp:41-43 | a code line with no flags, or with code-line attributes off, renders as exactly {CodeLine} |
| TextView.CodeLineFlagAppends | DIVA/UnitTests/src/TestLibScopeView/TestLine.cpp:76-109 | setting the next code-line flag in the fixed order appends one newline and one attribute line with its label |
| TextView.CodeLineLabelsInFixedOrder | DIVA/UnitTests/src/TestLibScopeView/TestLine.cpp:76-109 | with code-line attributes on, a code line renders as its header followed by exactly the labels of its set flags in the fixed order NewStatement, PrologueEnd, EndSequence, BasicBlock, Discriminator, EpilogueBegin |
| TextView.BlockAttributeLaw | DIVA/UnitTests/src/TestLibScopeView/TestScope.cpp:124-141 | a block shows try and catch exactly when the flag is set and block attributes are on, try before catch |
| TextView.DeclarationStatusLaw | DIVA/UnitTests/src/TestLibScopeView/TestScope.cpp:587-593 | a function's first attribute line is the declaration status, which is "Declaration @ ..." exactly when a reference exists, else "Is declaration" or "No declaration" by the flag |
| TextView.StatusForms | DIVA/UnitTests/src/TestLibScopeView/TestScope.cpp:587-593 | the three forms of the declaration status and when each is chosen |
| TextView.DeclarationPathLaw | DIVA/UnitTests/src/TestLibScopeView/TestScope.cpp:596-607 | the reference's path is "?" when marked invalid, else its full path, or its basename under the file-name option; its line is kept |
| TextView.IsDeclarationShownIffFlag | DIVA/UnitTests/src/TestLibScopeView/TestScope.cpp:609-619 | "Is declaration" appears among a function's attribute lines exactly when its declaration flag is set |
| YamlView.AsYAML | DIVA/UnitTests/src/TestLibScopeView/TestLine.cpp:45-71 | the YAML block starts with the object key and the quoted kind label |
| YamlView.YamlHead | DIVA/UnitTests/src/TestLibScopeView/TestLine.cpp:56-71 | the YAML block is the nine fixed lines, then the attributes key, then the kind's entries in order |
| YamlView.FixedKeysLaw | DIVA/UnitTests/src/TestLibScopeView/TestLine.cpp:56-65 | the fixed lines are object (the quoted kind label), name, type, source, line, file, dwarf, offset and tag, in that order |
| YamlView.EmptyAttributesLaw | DIVA/UnitTests/src/TestLibScopeView/TestScope.cpp:387-396 | the attributes key reads "{}" exactly when the kind has no entries |
| YamlView.NullFieldsLaw | DIVA/UnitTests/src/TestLibScopeView/TestLine.cpp:52-64 | name, line and tag read null exactly when absent; a line number is a decimal numeral that reads back as the line |
| YamlView.PresentFieldsLaw | DIVA/UnitTests/src/TestLibScopeView/TestScope.cpp:68-92 | a present name and tag are quoted; the file is quoted, "?" when marked invalid and null when absent; the type is the quoted prefixed name of the linked type, and null for a non-function kind without one |
| YamlView.OffsetLaw | DIVA/UnitTests/src/TestLibScopeView/TestLine.cpp:54-63 | an absent offset is null; a present one is "0x" and lower-case hex digits that read back as the offset |
| YamlView.CodeLineFlagsLaw | DIVA/UnitTests/src/TestLibScopeView/TestLine.cpp:56-71 | a code line always lists all six flags in the fixed order, each true exactly when set |
| YamlView.SetFlagTurnsOneKeyTrue | DIVA/UnitTests/src/TestLibScopeView/TestLine.cpp:133-191 | setting one code-line flag turns exactly its key true and leaves every other line unchanged |
| YamlView.ChildListInsertionOrder | DIVA/UnitTests/src/TestLibScopeView/TestScope.cpp:449-471 | appending a listed child appends its item lines at the end of the list, so lists keep insertion order |
| YamlView.MembersAppend | DIVA/UnitTests/src/TestLibScopeView/TestScope.cpp:305-323 | appending a child adds it at the end of the listed members when it is of the listed kind, and adds nothing otherwise |
| YamlView.EmptyListLaw | DIVA/UnitTests/src/TestLibScopeView/TestScope.cpp:264-266 | empty enumerator and type lists render inline as [], and an aggregate without bases has no inherits_from key |
| YamlView.InheritanceAccessLaw | DIVA/UnitTests/src/TestLibScopeView/TestScope.cpp:978-1016 | an inheritance item shows its parent as the quoted prefixed name of the linked type, or null without one; then "private" for an unspecified access under a class, "public" under a struct, and an explicit access unchanged |
| YamlView.ListItemFormsLaw | DIVA/UnitTests/src/TestLibScopeView/TestScope.cpp:1055-1081 | enumerator and template values are bare tokens; template-template names are quoted; a type argument is the quoted prefixed name of its type, and null exactly when it has no type |
| YamlView.FunctionVoidTypeLaw | DIVA/UnitTests/src/TestLibScopeView/TestScope.cpp:656-675 | a function without a type shows type "void" |
| YamlView.FunctionDeclarationLaw | DIVA/UnitTests/src/TestLibScopeView/TestScope.cpp:777-826 | the declaration file and line are null without a reference, "?" with the kept line for an invalid reference, and the quoted file and decimal line of a valid reference |
| YamlView.InlinedSubroutineLaw | DIVA/UnitTests/src/TestLibScopeView/TestScope.cpp:835-853 | an inlined function always shows is_inlined true |
| YamlView.TypePrefixTextVersusYaml | DIVA/UnitTests/src/TestLibScopeView/TestScope.cpp:94-98 | YAML shows a type's authored prefix whatever the options; text shows it only under the qualified-name option |
| ScopeScenarios.HexExample | DIVA/UnitTests/src/TestLibScopeView/TestScope.cpp:258 | the offset 0xD3ADB33F is written 0xd3adb33f |
| ScopeScenarios.QualifiedFunctionExample | DIVA/UnitTests/src/TestLibScopeView/TestScope.cpp:504-522 | a function in TestNamespace inside BaseNamespace resolves to the prefix BaseNamespace::TestNamespace:: |
| ScopeScenarios.QualifiedFunctionHeaderExample | DIVA/UnitTests/src/TestLibScopeView/TestScope.cpp:514-522 | under the qualified-name option that function with return type wsx renders the header {Function} "BaseNamespace::TestNamespace::qaz" -> "wsx" |

## Left out

- The global reader and its options singleton are not modelled. The options are an explicit parameter of the text renderer.
- The DWARF tag table is not modelled. A tag is an already decoded, optional string.
- Memory ownership is not modelled: allocation, `addObject` taking ownership, and destructors. Children are arena indices, and the arena's invariant only keeps every record owned at most once.
- The unused `Line` objects of the function attribute test are left out. They have no effect on the output.
- Skipping Array and Root records belongs to an enclosing tree walk, which is not part of this model. Only the `IsPrintedAsObject` predicate is modelled.
- The type-usage kinds (type, inheritance edge, enumerator, template argument) have no stand-alone rendering in the tests. They appear only as linked records and list items, and the renderers require a rendered kind.
- Binary reading, comparison, the command line and file I/O are not part of this model.
- ScopeModel.ParentPrefix: the walk visits at most as many ancestors as the arena holds. A cyclic parent chain is therefore truncated rather than followed forever. The arena does not reject cycles: `SetParent` accepts any record, as the tests' `setParent` does. WalkReachesOutermost states that the bound is never reached when the links are acyclic.
- Strings.Quote: no escaping. The tests never quote a string that holds a quote or a backslash.
- Strings.Basename: splits on '/' only. A path with '\' separators keeps them.
- ScopeModel.EffectiveAccess: the tests fix an unspecified access only under a class and under a struct. Under a union it is taken to be public.
- TextView.FunctionHeaderLaw: the tests show " static" and " inline" only one at a time. The order used when both are set is an assumption.
- YamlView.NullFieldsLaw, YamlView.OffsetLaw, YamlView.FixedKeysLaw and YamlView.FunctionVoidTypeLaw state their facts on the nine fixed lines (`CommonLines`). YamlView.YamlHead places those lines first in the whole block.
- A whole rendered YAML block is not compared with a test's literal text. Only the per-line laws above are proved. Only the hex offset example and the qualified function scenarios are proved on concrete values.
