# bwf2pbcore: a verified model of the PBCore document builder

`bwf2pbcore` reads the embedded metadata of Broadcast WAVE audio files and
writes, for each file, a PBCore description document (`<stem>_pbcore.xml`).
When an OHMS index file `<stem>_ohms.xml` exists, its root is embedded in
the document's instantiation. The stem is the path up to its last `.`, even
when that `.` is in a directory name: `recordings.2020/take` gives
`recordings_ohms.xml` and `recordings_pbcore.xml`. This project models the
core of that program in Dafny and proves its properties: the element builder
helpers, the assembly of one document, the derivation of the two file names,
and the run over the named files.

Modules, one concern each:

- `Wrappers`: `Option` and `Result`.
- `Seqs`: sequences built item by item (`Map`, `Flatten`), order by rank
  (`SortedBy`) and selection by rank (`Filter`).
- `Text`: `str.split(sep)`, `str.strip()`, `"".join(s.split())`,
  `s.split('.')[0]` and `s.rsplit('.', 1)[0]`.
- `Wikidata`: the matcher for `(.+)\s+\{(Q\d+)\}` as `re.match` applies it,
  and the classification of one multivalue item.
- `Xml`: element trees, ordered attribute dictionaries, the three registered
  namespaces and `qualified_element`.
- `Builder`: `add_child`, `add_multivalue_child` and `add_complex_child`. The
  class `OpenElement` is an element whose child list is appended to in place.
  Each helper is a method on it, proved against a function on values that
  says what it appends.
- `Pbcore`: the file names and the per-file assembly, step by step
  (`ConvertFile`) and as a value (`Document`).
- `Layout`: what an assembled document looks like. Its children are sorted in
  the PBCore section order, and each section holds exactly its part.
- `Batch`: the loop over the command-line files, with the file system as a
  map from path to stored document. The run is defined and proved once for
  any `Converter` (a per-file step, the output name and the companion name
  of a file); `Bwf2Pbcore` is the converter of this program.

The metadata record is a `map<string, string>`. The callers of the per-file
assembly must supply all twenty keys it reads (`HasAllKeys`). The Python code
indexes the record directly, so a missing key raises `KeyError`.

A dead end in the source is modelled as an error result
(`BuildError.BlankItem`). A blank item in a subject field, such as the
trailing empty item of `"a;"`, makes `add_child` return `None`. The
following `child.set` then raises, which ends the run. A blank item in a
contributor field is not an error: `add_complex_child` emits the block
without its `contributor` child.

## Model

| member | source | states |
|---|---|---|
| Xml.Namespaces | autoBWF/bwf2pbcore.py:9-14 | the registered map has exactly the three prefixes xml, pbcore and ohms, each bound to its URI |
| Xml.QualifiedRoundTrip | autoBWF/bwf2pbcore.py:16-17 | reading the local name back out of `{uri}e` gives `e`, and every name that reads back to `e` is `{uri}e` |
| Xml.QualifiedInjective | autoBWF/bwf2pbcore.py:16-17 | distinct local names give distinct qualified names in one namespace |
| Xml.Lookup | autoBWF/bwf2pbcore.py:26-27 | an attribute is absent exactly when no entry carries its key; with distinct keys it is the value of the entry that does |
| Xml.SetAttr | autoBWF/bwf2pbcore.py:26-27 | `element.set(k, v)` replaces the value of an existing key in place and otherwise appends the entry; keys stay distinct |
| Xml.SetAttrLookup | autoBWF/bwf2pbcore.py:26-27 | after `set(k, v)` key `k` reads `v` and every other key reads as before |
| Xml.Merge | autoBWF/bwf2pbcore.py:47-49 | setting a sequence of attributes on an element keeps its keys distinct |
| Xml.MergeLookup | autoBWF/bwf2pbcore.py:47-49 | after the caller's attributes are set, a key reads the caller's value when the caller set it, and the element's own value otherwise |
| Xml.SetAttrFresh | autoBWF/bwf2pbcore.py:26-27 | `set` of a key the element does not yet carry adds the entry at the end |
| Xml.MergeIntoEmpty | autoBWF/bwf2pbcore.py:26-27 | setting attributes on an element with none gives exactly those attributes, in order |
| Text.Split | autoBWF/bwf2pbcore.py:34 | `split(';')` gives at least one piece, no piece holds `;`, and joining the pieces with `;` gives the value back |
| Text.SplitJoin | autoBWF/bwf2pbcore.py:34 | splitting a `;`-join of pieces free of `;` gives the pieces back |
| Text.Strip | autoBWF/bwf2pbcore.py:45 | `strip()` is empty exactly for a blank item, starts and ends with no whitespace, and is the item less a whitespace prefix and a whitespace suffix |
| Text.BeforeFirst | autoBWF/bwf2pbcore.py:128 | `split('.')[0]` holds no `.`, is a prefix of the value, is followed by `.` when shorter, and is the whole value when it has no `.` |
| Text.BeforeLast | autoBWF/bwf2pbcore.py:81-82 | `rsplit('.', 1)[0]` is the whole name when it has no `.`, and otherwise the name is it, a `.` and a tail free of `.` |
| Text.Words | autoBWF/bwf2pbcore.py:129 | `split()` gives non-empty pieces free of whitespace |
| Text.NonSpace | autoBWF/bwf2pbcore.py:129 | the non-whitespace characters hold no whitespace, are no longer than the value, and are the value when it has none |
| Text.JoinWordsIsNonSpace | autoBWF/bwf2pbcore.py:129 | `"".join(s.split())` is exactly the characters of `s` that are not whitespace, in order |
| Text.RemoveWhitespace | autoBWF/bwf2pbcore.py:129 | the language transform removes exactly the whitespace characters |
| Wikidata.TailAtIsMatch | autoBWF/bwf2pbcore.py:31-36 | the scanner reads `\s+\{Q\d+\}` after group 1 exactly when the reference definition of a match holds there |
| Wikidata.SearchSpec | autoBWF/bwf2pbcore.py:31-36 | the greedy search reports a valid end of group 1, and no longer candidate is one |
| Wikidata.MatchBounded | autoBWF/bwf2pbcore.py:31-36 | every match has a group 1 no longer than the one the search reports |
| Wikidata.LongestMatch | autoBWF/bwf2pbcore.py:31-36 | the search succeeds exactly when the pattern matches at the start, and then reports the match with the longest group 1 |
| Wikidata.Classify | autoBWF/bwf2pbcore.py:36-45 | a sourced item's name is a proper prefix of the item and its code is non-empty (the full characterisation is `ClassifySpec`) |
| Wikidata.ClassifySpec | autoBWF/bwf2pbcore.py:36-45 | an item is sourced exactly when the pattern matches; the name is group 1 of the longest match, unstripped, non-empty, without a newline; the code is `Q` and digits; a plain item's text is the item stripped |
| Wikidata.DisplayTextEmpty | autoBWF/bwf2pbcore.py:39-45 | the text an item gets is empty exactly when the item is blank |
| Wikidata.BlankIsPlain | autoBWF/bwf2pbcore.py:36-45 | a blank item never matches the pattern |
| Builder.Child | autoBWF/bwf2pbcore.py:19-28 | `add_child` appends at most one element, and one exactly when the value is non-empty or empty values are allowed |
| Builder.SourceAttrs | autoBWF/bwf2pbcore.py:41-42 | the wikidata attributes have distinct keys |
| Builder.ItemAttrs | autoBWF/bwf2pbcore.py:36-45 | the attributes of an item's element have distinct keys |
| Builder.ItemChildBlank | autoBWF/bwf2pbcore.py:36-45 | an item adds no element exactly when it is blank; otherwise one element with the item's text and wikidata attributes |
| Builder.Turn | autoBWF/bwf2pbcore.py:36-49 | one loop turn appends at most one element, and fails exactly when there are caller attributes and the item is blank |
| Builder.Multivalue | autoBWF/bwf2pbcore.py:30-49 | `add_multivalue_child` never fails without caller attributes (its full behaviour is `MultivalueSpec`) |
| Builder.ContributorBlock | autoBWF/bwf2pbcore.py:59-73 | a contributor block is an `elementName` element with at most two children, ending with the role element when the role is non-empty |
| Builder.ContributorBlocks | autoBWF/bwf2pbcore.py:51-73 | `add_complex_child` adds nothing exactly for an empty value, and otherwise one block per `;`-separated item |
| Builder.RunSnoc | autoBWF/bwf2pbcore.py:35-49 | one more loop turn extends the run by that turn, unless the run has already failed |
| Builder.RunAdvance | autoBWF/bwf2pbcore.py:35-49 | a turn after a run that has not failed appends its elements and decides whether the loop goes on |
| Builder.RunStopped | autoBWF/bwf2pbcore.py:35-49 | once a turn has failed, later turns change nothing |
| Builder.RunOk | autoBWF/bwf2pbcore.py:35-49 | the loop runs to the end exactly when every turn succeeds |
| Builder.RunNodes | autoBWF/bwf2pbcore.py:35-49 | a complete loop appends the elements of every turn, in order |
| Builder.TurnsAt | autoBWF/bwf2pbcore.py:35 | there is one turn per item, and turn `i` is that of item `i` |
| Builder.TurnSpec | autoBWF/bwf2pbcore.py:35-49 | with caller attributes, a turn fails exactly when its item is blank, and otherwise appends the item's element with the caller's attributes |
| Builder.MultivalueItemsSpec | autoBWF/bwf2pbcore.py:34-49 | with caller attributes, the loop runs to the end exactly when no item is blank, and then appends one element per item, in order |
| Builder.MultivalueItemsPlain | autoBWF/bwf2pbcore.py:34-46 | without caller attributes, the loop always runs to the end and appends the element of every non-blank item, in order |
| Builder.MultivalueSpec | autoBWF/bwf2pbcore.py:30-49 | an empty value adds nothing; otherwise the helper runs to the end exactly when no `;`-separated item is blank, and then appends one element per item, in order |
| Builder.ItemElementsAt | autoBWF/bwf2pbcore.py:35-49 | element `i` of a complete run is the element of item `i` |
| Builder.ItemElementAttrs | autoBWF/bwf2pbcore.py:38-49 | every element carries each caller attribute, and it carries `source="wikidata"` and the reference URL of its code exactly when its item is sourced |
| Builder.ContributorBlockShape | autoBWF/bwf2pbcore.py:58-73 | a contributor block ends with its role element, and holds the `contributor` element before it exactly when the item is not blank |
| Builder.ContributorItemsAt | autoBWF/bwf2pbcore.py:58-59 | there is one block per item, and block `i` is that of item `i` |
| Builder.ContributorBlocksSpec | autoBWF/bwf2pbcore.py:51-73 | an empty value adds nothing; otherwise there is one block per `;`-separated item, blank ones included, each of the shape above and in order |
| Builder.NewBlock | autoBWF/bwf2pbcore.py:60-73 | building one block step by step gives the block of the value model |
| Builder.OpenElement.constructor | autoBWF/bwf2pbcore.py:88 | a new element has the given tag and no children |
| Builder.OpenElement.Append | autoBWF/bwf2pbcore.py:89-91 | appending adds one child at the end and changes nothing else |
| Builder.OpenElement.SetOnLastChild | autoBWF/bwf2pbcore.py:47-49 | `set` on the child just added updates the attributes of the last child only |
| Builder.OpenElement.AddChild | autoBWF/bwf2pbcore.py:19-28 | `add_child` appends what `Child` gives and reports whether it added an element |
| Builder.OpenElement.AddItem | autoBWF/bwf2pbcore.py:36-45 | one item's `add_child` appends the item's element exactly when it is not blank |
| Builder.OpenElement.AddTurn | autoBWF/bwf2pbcore.py:36-49 | one loop turn appends what `Turn` gives and reports whether it could set the caller's attributes |
| Builder.OpenElement.AddItems | autoBWF/bwf2pbcore.py:35-49 | the loop appends what the run of its turns gives and stops at the first failing turn |
| Builder.OpenElement.AddMultivalueChild | autoBWF/bwf2pbcore.py:30-49 | `add_multivalue_child` appends what `Multivalue` gives |
| Builder.OpenElement.AddBlock | autoBWF/bwf2pbcore.py:59-73 | one turn of `add_complex_child` appends one contributor block |
| Builder.OpenElement.AddComplexChild | autoBWF/bwf2pbcore.py:51-73 | `add_complex_child` appends what `ContributorBlocks` gives |
| Pbcore.Stem | autoBWF/bwf2pbcore.py:81-82 | the stem is the whole name when it has no `.`, and otherwise the name is the stem, a `.` and an extension free of `.` |
| Pbcore.CompanionName | autoBWF/bwf2pbcore.py:81 | the companion name ends in `_ohms.xml`, and what precedes it is the path up to its last `.` (the whole path when it has none) |
| Pbcore.OutputName | autoBWF/bwf2pbcore.py:82 | the output name ends in `_pbcore.xml`, and what precedes it is the path up to its last `.` (the whole path when it has none) |
| Pbcore.NamesBeforeLastDot | autoBWF/bwf2pbcore.py:81-82 | the cut falls at the last `.` of the whole path, dots in directory names included: `a.b` with `b` free of `.` gives `a_ohms.xml` and `a_pbcore.xml` |
| Pbcore.OutputNeverCompanion | autoBWF/bwf2pbcore.py:81-82 | no output name is ever a companion name, whatever the two audio file names |
| Pbcore.NamesDifferFromInput | autoBWF/bwf2pbcore.py:81-82 | neither derived name is the audio file's own name |
| Pbcore.Document | autoBWF/bwf2pbcore.py:88-137 | the assembly fails only with a blank subject item, and otherwise gives the `pbcoreDescriptionDocument` root without attributes (its full shape is `Layout`) |
| Pbcore.Duration | autoBWF/bwf2pbcore.py:128 | the duration written holds no `.`, is a prefix of the record's duration, and is followed there by `.` when shorter |
| Pbcore.Language | autoBWF/bwf2pbcore.py:129 | the language written is the record's language without its whitespace |
| Pbcore.AddComments | autoBWF/bwf2pbcore.py:89-91 | the three comments are appended, the second naming the audio file |
| Pbcore.AddHead | autoBWF/bwf2pbcore.py:93-96 | asset type, asset date, local identifier and title are appended in that order, each only when non-empty |
| Pbcore.AddSubject | autoBWF/bwf2pbcore.py:98-101 | one subject pass appends the elements of its field tagged with its subject type, and reports a blank item |
| Pbcore.AddContributors | autoBWF/bwf2pbcore.py:105-114 | the contributor blocks of the five roles are appended in the order interviewer, interviewee, host, speaker and performer |
| Pbcore.NewPublisher | autoBWF/bwf2pbcore.py:117-119 | the publisher block holds the owner and the role `copyright holder` |
| Pbcore.NewRights | autoBWF/bwf2pbcore.py:121-122 | the rights block holds the rights summary when it is non-empty |
| Pbcore.NewExtension | autoBWF/bwf2pbcore.py:135-137 | the extension wraps the companion root in `instantiationExtension/extensionEmbedded` |
| Pbcore.NewInstantiation | autoBWF/bwf2pbcore.py:124-137 | the instantiation holds identifier, location, duration and language, then the extension when there is a companion |
| Pbcore.AddPublisher | autoBWF/bwf2pbcore.py:116-119 | the publisher block is appended exactly when the owner is non-empty |
| Pbcore.AddTail | autoBWF/bwf2pbcore.py:103-137 | description, contributors, publisher, rights, instantiation and annotation are appended in that order |
| Pbcore.ConvertFile | autoBWF/bwf2pbcore.py:88-137 | the step-by-step assembly gives the document `Document` describes, or its error |
| Layout.DocumentOutcome | autoBWF/bwf2pbcore.py:98-101 | a document is built exactly when no subject field holds a blank item; otherwise the first such field of topics, names, events and places is reported; a built document is the root element holding `Children` |
| Layout.BlankField | autoBWF/bwf2pbcore.py:98-101 | the field reported for a record whose subjects fail is one that holds a blank item |
| Layout.BlankReported | autoBWF/bwf2pbcore.py:98-101 | a record whose subjects hold a blank item gives no document, whatever the file and its companion, and the error names the first blank field of topics, names, events and places |
| Layout.ChildrenSorted | autoBWF/bwf2pbcore.py:88-131 | the root's children are sorted by rank: comments, then the PBCore sections in their order, subjects by type and contributors by role |
| Layout.ChildrenRanks | autoBWF/bwf2pbcore.py:88-131 | every child of the root has the rank of one of the sections, subject types or contributor roles, so the document holds nothing outside them |
| Layout.HeadSections | autoBWF/bwf2pbcore.py:93-96 | the asset type, asset date, identifier and title sections each hold that element, built from its field, and nothing when the field is empty |
| Layout.SubjectSections | autoBWF/bwf2pbcore.py:98-101 | the subjects of each type are exactly the elements of that field's pass, in order |
| Layout.DescriptionSection | autoBWF/bwf2pbcore.py:103 | the description section holds the description element when the description is non-empty, and nothing otherwise |
| Layout.ContributorSections | autoBWF/bwf2pbcore.py:105-114 | each of the five contributor roles has its own section, holding exactly the blocks read from that role's field, in order |
| Layout.PublisherIffOwner | autoBWF/bwf2pbcore.py:116-119 | the document holds one publisher block, with the owner, exactly when the owner is non-empty, and none otherwise |
| Layout.OneRights | autoBWF/bwf2pbcore.py:121-122 | the document holds exactly one rights block, even when the rights summary is empty |
| Layout.OneInstantiation | autoBWF/bwf2pbcore.py:124-137 | the document holds exactly one instantiation |
| Layout.AnnotationSection | autoBWF/bwf2pbcore.py:131 | the annotation section is the annotation when the ISRC is non-empty, and nothing otherwise |
| Layout.ChildrenOpen | autoBWF/bwf2pbcore.py:89-91 | the document opens with the three comments |
| Layout.InstantiationShape | autoBWF/bwf2pbcore.py:124-137 | the instantiation holds its four descriptive children first, then the embedded companion as its last child exactly when there is one; no other child is an extension |
| Layout.CoreTags | autoBWF/bwf2pbcore.py:125-129 | none of the descriptive children of the instantiation is an extension |
| Batch.Fetch | autoBWF/bwf2pbcore.py:133-134 | no companion when no file has the companion name, its root when the file parses, and an error naming it when the file does not parse |
| Batch.Convert | autoBWF/bwf2pbcore.py:98-137 | a file converts only when its companion look-up succeeded, and fails with a blank item or the look-up's error |
| Batch.ConvertOk | autoBWF/bwf2pbcore.py:98-137 | a file converts exactly when its subjects hold no blank item and its companion is absent or parses |
| Batch.ConvertResult | autoBWF/bwf2pbcore.py:98-137 | a converted file's document embeds the companion; a blank subject item is reported before the companion is looked at |
| Batch.ConvertError | autoBWF/bwf2pbcore.py:98-137 | a failed conversion reports the first blank subject field, or else the companion's error |
| Batch.ConvertSteps | autoBWF/bwf2pbcore.py:98-137 | building with the companion when its look-up succeeded, and reporting a failed build before a failed look-up, gives the conversion |
| Batch.ConvertedPrefix | autoBWF/bwf2pbcore.py:80-139 | the files of a prefix of the run are converted as in the whole run |
| Batch.RunFiles | autoBWF/bwf2pbcore.py:80-139 | a run removes no file (what it writes is `RunKeepsOthers` and `RunOutputs`) |
| Batch.RunLast | autoBWF/bwf2pbcore.py:80-139 | the last file of a run sees its companion as it was before the run |
| Batch.RunKeepsOthers | autoBWF/bwf2pbcore.py:139 | the run writes only output names of its files, and every other path keeps what it held |
| Batch.CompanionsUntouched | autoBWF/bwf2pbcore.py:80-139 | no file of the run ever sees a companion written by an earlier file |
| Batch.RunSucceeds | autoBWF/bwf2pbcore.py:80-139 | the run ends without error exactly when every file converts |
| Batch.RunFails | autoBWF/bwf2pbcore.py:80-139 | a failed run reports the error of the first file that does not convert, and every earlier file converted |
| Batch.ErrorSticks | autoBWF/bwf2pbcore.py:80-139 | after an error, later files change nothing |
| Batch.RunOutputs | autoBWF/bwf2pbcore.py:139 | after a successful run, the output of each file whose output name no later file shares holds that file's document |
| Batch.RunFailsOutputs | autoBWF/bwf2pbcore.py:80-139 | after a run that fails at a file, the error is that file's, and the output of each earlier file whose output name no file between it and the failing one shares holds that file's document |
| Batch.Bwf2PbcoreApart | autoBWF/bwf2pbcore.py:81-82 | no output name of the converter is a companion name |
| Batch.BatchConverted | autoBWF/bwf2pbcore.py:80-139 | each file of the converter's run is converted with its companion as it was before the run |
| Batch.BatchStep | autoBWF/bwf2pbcore.py:80-139 | one more file of a run that has not failed writes its document under its output name, or ends the run with its error |
| Batch.Batch | autoBWF/bwf2pbcore.py:80-139 | the converter's run removes no file |
| Batch.BatchSucceeds | autoBWF/bwf2pbcore.py:80-139 | the converter's run succeeds exactly when no file has a blank subject item and every companion is absent or parses |
| Batch.BatchFails | autoBWF/bwf2pbcore.py:80-139 | a failed run of the converter stops at a file that has a blank subject item or a companion that does not parse, before which every file had neither, and names that file's first blank subject field, or else its companion's name |
| Batch.BatchFailure | autoBWF/bwf2pbcore.py:98-134 | a file that does not convert reports its first blank subject field, or else the name of its malformed companion |
| Batch.BatchPrefixOk | autoBWF/bwf2pbcore.py:80-139 | the files that converted had no blank subject item and a companion that is absent or parses |
| Batch.BatchFrame | autoBWF/bwf2pbcore.py:80-139 | the converter writes only output names and never a companion |
| Batch.BatchOutputs | autoBWF/bwf2pbcore.py:133-139 | after a successful run, the output of each file whose output name no later file shares holds that file's document with its companion embedded |
| Batch.ConvertAll | autoBWF/bwf2pbcore.py:80-139 | the loop over the files gives the outcome `Batch` describes |

## Left out

- The `namespace` parameter of the helpers is not modelled. Every call in the assembly uses the default, `pbcore`.
- An element is a value with a text of type `string`. ElementTree leaves the text `None` until it is set, and the model writes `""` for that; both serialise the same.
- Each container is built as its own `OpenElement` and attached once complete: contributor blocks, publisher, rights, instantiation, extension and `extensionEmbedded`. The Python code attaches each one first and fills it through the handle it keeps. The resulting tree is the same, because nothing else reads the container in between.
- The companion is looked up before the instantiation is attached, so the extension is built before the annotation is appended. The Python code adds it to the already attached instantiation after the annotation. The tree is the same.
- `Batch.ConvertAll` looks up the companion before it builds the document. The Python code does so after. The look-up is a pure read of the file-system value, and the step reports a blank item before a malformed companion, as the code does.
- Whitespace and digits are ASCII: `Text.IsSpace` is the whitespace of `str.isspace` below 128, and `Text.IsDigit` is `0`-`9`. This covers `\s` and `\d` in the wikidata pattern (`Wikidata.Classify`), and also `str.strip()` (`Text.Strip`) and `str.split()` (`Text.Words`, `Text.RemoveWhitespace`, `Pbcore.Language`). Python also treats Unicode whitespace and digits as such. So the model keeps a no-break space that Python strips from an item or removes from the language: Python writes `"enUS"` for the language `"en\u00a0US"`, where the model writes it unchanged.
- Metadata loading is not modelled (`get_bwf_core`, `get_bwf_tech`, `get_xmp` and the external `bwfmetaedit` tool it runs). `BWFfileIO` is not part of this model. Each audio file comes with its merged record (`Batch.Input`).
- Argument parsing is not modelled; the run takes the list of file names as given.
- `ET.register_namespace` is left out; the three-entry namespace map is a constant.
- Serialisation is left out. A written document is stored in the file-system map as its tree.
- `path.isfile` and `ET.parse` are modelled as a look-up in the file-system map. A stored path either parses or does not. The cases of a directory at that path and of read errors are not distinguished.
- A missing metadata key is a precondition (`HasAllKeys`) rather than an error result. The code raises `KeyError` for it before anything is written for that file.
- The GUI in `autoBWF.py` is not part of this model.
- The XML declaration, the encoding and character escaping of the written file are not modelled.
