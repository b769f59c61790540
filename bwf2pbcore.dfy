/**
 * The per-file assembly of a PBCore description document from a metadata
 * record, the name of the audio file it describes and the root of its
 * optional OHMS companion document, and the derivation of the companion and
 * output file names from the audio file name.
 */
module Pbcore {
  import opened Wrappers
  import opened Text
  import opened Xml
  import opened Builder
  import opened Seqs

  // ---------------------------------------------------------------------------
  // File names

  /** The text of the audio file's path before its last `.`, or the whole
      path when it has none. */
  function Stem(infile: string): (r: string)
    ensures '.' !in infile ==> r == infile
    ensures '.' in infile ==> exists ext :: '.' !in ext && infile == r + "." + ext
  {
    BeforeLast(infile, '.')
  }

  /** The OHMS companion document looked for beside the audio file: the
      text before the last `.` of the path, followed by `_ohms.xml`. */
  function CompanionName(infile: string): (r: string)
    ensures |r| >= 9 && r[|r| - 9..] == "_ohms.xml"
    ensures '.' !in infile ==> r[..|r| - 9] == infile
    ensures '.' in infile ==> exists ext :: '.' !in ext && infile == r[..|r| - 9] + "." + ext
  {
    var s := Stem(infile);
    assert (s + "_ohms.xml")[..|s|] == s;
    s + "_ohms.xml"
  }

  /** The PBCore document written beside the audio file: the text before
      the last `.` of the path, followed by `_pbcore.xml`. */
  function OutputName(infile: string): (r: string)
    ensures |r| >= 11 && r[|r| - 11..] == "_pbcore.xml"
    ensures '.' !in infile ==> r[..|r| - 11] == infile
    ensures '.' in infile ==> exists ext :: '.' !in ext && infile == r[..|r| - 11] + "." + ext
  {
    var s := Stem(infile);
    assert (s + "_pbcore.xml")[..|s|] == s;
    s + "_pbcore.xml"
  }

  /** The stem is everything before the last `.` of the whole path, dots
      in directory names included: `recordings.2020/take` gives
      `recordings_ohms.xml` and `recordings_pbcore.xml`. */
  lemma NamesBeforeLastDot(a: string, b: string)
    requires '.' !in b
    ensures Stem(a + "." + b) == a
    ensures CompanionName(a + "." + b) == a + "_ohms.xml"
    ensures OutputName(a + "." + b) == a + "_pbcore.xml"
  {
    var x := a + "." + b;
    var s := Stem(x);
    var ext :| '.' !in ext && x == s + "." + ext;
    assert x[|s|] == '.' && x[|a|] == '.';
    assert s == x[..|a|] == a;
  }

  /** No output name is ever a companion name, so writing one document never
      replaces the companion of another file. */
  lemma OutputNeverCompanion(a: string, b: string)
    ensures OutputName(a) != CompanionName(b)
  {
    var x := OutputName(a);
    var y := CompanionName(b);
    assert x[|x| - 5] == 'e';
    assert y[|y| - 5] == 's';
  }

  /** Neither derived name is the audio file's own name. */
  lemma NamesDifferFromInput(infile: string)
    ensures OutputName(infile) != infile
    ensures CompanionName(infile) != infile
  {
    var s := Stem(infile);
    if '.' in infile {
      var ext :| '.' !in ext && infile == s + "." + ext;
      assert infile[|s|] == '.';
      assert OutputName(infile)[|s|] == '_';
      assert CompanionName(infile)[|s|] == '_';
    }
  }

  // ---------------------------------------------------------------------------
  // The metadata record

  /** The merged BWF core, BWF technical and XMP metadata of one file. */
  type Metadata = map<string, string>

  /** Every key the assembly reads; the record is indexed directly, so a
      missing one would stop the run before anything is built. */
  const RecordKeys: set<string> := {
    "form", "ICRD", "FileContent", "INAM", "topics", "names", "events", "places",
    "xmp_description", "interviewer", "interviewee", "host", "speaker", "performer",
    "owner", "ICOP", "OriginatorReference", "Duration", "language", "ISRC"}

  predicate HasAllKeys(m: Metadata) {
    RecordKeys <= m.Keys
  }

  /** Why a document could not be built: a blank item in the named subject
      field, or a companion document that does not parse. */
  datatype BuildError = BlankItem(field: string) | MalformedCompanion(path: string)

  // ---------------------------------------------------------------------------
  // The parts of the document, as values

  const RootName := "pbcoreDescriptionDocument"

  const Banner := "Automatically generated by bwf2pbcore. DO NOT EDIT BY HAND."
  const EditHint := "To make changes, edit the internal metadata in "
  const RerunHint := "and re-run bwf2pbcore"

  /** The three comments that open every document. */
  function Comments(infile: string): (r: seq<Node>) {
    [Comment(Banner), Comment(EditHint + infile), Comment(RerunHint)]
  }

  /** Asset type, asset date, local identifier and title, each omitted when empty. */
  function Head(m: Metadata): (r: seq<Node>)
    requires HasAllKeys(m)
  {
    Child("pbcoreAssetType", m["form"], [], false)
    + Child("pbcoreAssetDate", m["ICRD"], [], false)
    + Child("pbcoreIdentifier", m["FileContent"], [("source", "local")], false)
    + Child("pbcoreTitle", m["INAM"], [], false)
  }

  /** One subject pass over a field, every element tagged with the subject type. */
  function Subject(m: Metadata, field: string, subjectType: string): (r: Emission)
    requires field in m
  {
    Multivalue("pbcoreSubject", m[field], [("subjectType", subjectType)])
  }

  function Description(m: Metadata): (r: seq<Node>)
    requires HasAllKeys(m)
  {
    Child("pbcoreDescription", m["xmp_description"], [], false)
  }

  /** The contributor blocks of one role, read from the field of that name. */
  function RoleBlocks(m: Metadata, role: string): (r: seq<Node>)
    requires role in m
  {
    ContributorBlocks("pbcoreContributor", "contributor", "contributorRole", m[role], role)
  }

  /** The contributor blocks of the five roles, role by role. */
  function Contributors(m: Metadata): (r: seq<Node>)
    requires HasAllKeys(m)
  {
    RoleBlocks(m, "interviewer") + RoleBlocks(m, "interviewee") + RoleBlocks(m, "host")
    + RoleBlocks(m, "speaker") + RoleBlocks(m, "performer")
  }

  function PublisherBlock(owner: string): (r: Node) {
    Element(Q("pbcorePublisher"), [], "",
      Child("publisher", owner, [], false) + Child("publisherRole", "copyright holder", [], false))
  }

  /** The publisher block, present exactly when there is an owner. */
  function Publisher(m: Metadata): (r: seq<Node>)
    requires HasAllKeys(m)
  {
    if m["owner"] != "" then [PublisherBlock(m["owner"])] else []
  }

  /** The rights block, always present, its summary omitted when empty. */
  function Rights(m: Metadata): (r: Node)
    requires HasAllKeys(m)
  {
    Element(Q("pbcoreRightsSummary"), [], "", Child("rightsSummary", m["ICOP"], [], false))
  }

  /** The duration as written: the text before its first `.`, which drops any
      fraction of a second. */
  function Duration(d: string): (r: string)
    ensures '.' !in r && r <= d
    ensures |r| < |d| ==> d[|r|] == '.'
  {
    BeforeFirst(d, '.')
  }

  /** The language code as written: every whitespace character removed. */
  function Language(l: string): (r: string)
    ensures r == NonSpace(l)
  {
    RemoveWhitespace(l)
  }

  /** The companion root, wrapped for embedding. */
  function Extension(companion: Node): (r: Node) {
    Element(Q("instantiationExtension"), [], "", [Element(Q("extensionEmbedded"), [], "", [companion])])
  }

  /** The four descriptive children of the instantiation. */
  function InstantiationCore(m: Metadata, infile: string): (r: seq<Node>)
    requires HasAllKeys(m)
  {
    Child("instantiationIdentifier", m["OriginatorReference"], [("source", "local")], false)
    + Child("instantiationLocation", infile, [], false)
    + Child("instantiationDuration", Duration(m["Duration"]), [], false)
    + Child("instantiationLanguage", Language(m["language"]), [], false)
  }

  /** The instantiation block, always present, ending with the embedded
      companion when there is one. */
  function Instantiation(m: Metadata, infile: string, companion: Option<Node>): (r: Node)
    requires HasAllKeys(m)
  {
    Element(Q("pbcoreInstantiation"), [], "",
      InstantiationCore(m, infile) + (if companion.Some? then [Extension(companion.value)] else []))
  }

  function Annotation(m: Metadata): (r: seq<Node>)
    requires HasAllKeys(m)
  {
    Child("pbcoreAnnotation", m["ISRC"], [("annotationType", "source collection")], false)
  }

  /** The children of the root after the subjects. */
  function Tail(m: Metadata, infile: string, companion: Option<Node>): (r: seq<Node>)
    requires HasAllKeys(m)
  {
    Description(m) + Contributors(m) + Publisher(m) + [Rights(m)] + [Instantiation(m, infile, companion)] + Annotation(m)
  }

  /** The children of the root, given the elements of the four subject passes. */
  function RootChildren(m: Metadata, infile: string, companion: Option<Node>,
                        topics: seq<Node>, names: seq<Node>, events: seq<Node>, places: seq<Node>): (r: seq<Node>)
    requires HasAllKeys(m)
  {
    Comments(infile) + Head(m) + topics + names + events + places + Tail(m, infile, companion)
  }

  function Topics(m: Metadata): (r: Emission) requires HasAllKeys(m) { Subject(m, "topics", "topic") }
  function Names(m: Metadata): (r: Emission) requires HasAllKeys(m) { Subject(m, "names", "name") }
  function Events(m: Metadata): (r: Emission) requires HasAllKeys(m) { Subject(m, "events", "period") }
  function Places(m: Metadata): (r: Emission) requires HasAllKeys(m) { Subject(m, "places", "geographic") }

  /** The document for one audio file, or the first blank subject item that
      stops the assembly. */
  function Document(m: Metadata, infile: string, companion: Option<Node>): (r: Result<Node, BuildError>)
    requires HasAllKeys(m)
    ensures r.Failure? ==> r.error.BlankItem?
    ensures r.Success? ==> r.value.Element? && r.value.tag == Q(RootName) && r.value.attrs == []
  {
    if !Topics(m).ok then Failure(BlankItem("topics"))
    else if !Names(m).ok then Failure(BlankItem("names"))
    else if !Events(m).ok then Failure(BlankItem("events"))
    else if !Places(m).ok then Failure(BlankItem("places"))
    else Success(Element(Q(RootName), [], "",
      RootChildren(m, infile, companion, Topics(m).nodes, Names(m).nodes, Events(m).nodes, Places(m).nodes)))
  }

  // ---------------------------------------------------------------------------
  // The assembly, step by step

  method AddComments(root: OpenElement, infile: string)
    modifies root
    ensures root.children == old(root.children) + Comments(infile)
  {
    ghost var c0 := root.children;
    root.Append(Comment(Banner));
    root.Append(Comment(EditHint + infile));
    AppendAssoc(c0, [Comment(Banner)], [Comment(EditHint + infile)]);
    root.Append(Comment(RerunHint));
    AppendAssoc(c0, [Comment(Banner)] + [Comment(EditHint + infile)], [Comment(RerunHint)]);
    assert Comments(infile) == [Comment(Banner)] + [Comment(EditHint + infile)] + [Comment(RerunHint)];
  }

  method AddHead(root: OpenElement, m: Metadata)
    requires HasAllKeys(m)
    modifies root
    ensures root.children == old(root.children) + Head(m)
  {
    ghost var c0 := root.children;
    ghost var a, b, c, d := Child("pbcoreAssetType", m["form"], [], false), Child("pbcoreAssetDate", m["ICRD"], [], false),
      Child("pbcoreIdentifier", m["FileContent"], [("source", "local")], false), Child("pbcoreTitle", m["INAM"], [], false);
    var added := root.AddChild("pbcoreAssetType", m["form"], [], false);
    added := root.AddChild("pbcoreAssetDate", m["ICRD"], [], false);
    AppendAssoc(c0, a, b);
    added := root.AddChild("pbcoreIdentifier", m["FileContent"], [("source", "local")], false);
    AppendAssoc(c0, a + b, c);
    added := root.AddChild("pbcoreTitle", m["INAM"], [], false);
    AppendAssoc(c0, a + b + c, d);
  }

  method AddSubject(root: OpenElement, m: Metadata, field: string, subjectType: string) returns (ok: bool)
    requires field in m
    modifies root
    ensures ok == Subject(m, field, subjectType).ok
    ensures root.children == old(root.children) + Subject(m, field, subjectType).nodes
  {
    ok := root.AddMultivalueChild("pbcoreSubject", m[field], [("subjectType", subjectType)]);
  }

  method AddContributors(root: OpenElement, m: Metadata)
    requires HasAllKeys(m)
    modifies root
    ensures root.children == old(root.children) + Contributors(m)
  {
    ghost var c0 := root.children;
    ghost var a, b, c, d, e := RoleBlocks(m, "interviewer"), RoleBlocks(m, "interviewee"),
      RoleBlocks(m, "host"), RoleBlocks(m, "speaker"), RoleBlocks(m, "performer");
    root.AddComplexChild("pbcoreContributor", "contributor", "contributorRole", m["interviewer"], "interviewer");
    root.AddComplexChild("pbcoreContributor", "contributor", "contributorRole", m["interviewee"], "interviewee");
    AppendAssoc(c0, a, b);
    root.AddComplexChild("pbcoreContributor", "contributor", "contributorRole", m["host"], "host");
    AppendAssoc(c0, a + b, c);
    root.AddComplexChild("pbcoreContributor", "contributor", "contributorRole", m["speaker"], "speaker");
    AppendAssoc(c0, a + b + c, d);
    root.AddComplexChild("pbcoreContributor", "contributor", "contributorRole", m["performer"], "performer");
    AppendAssoc(c0, a + b + c + d, e);
  }

  method NewPublisher(owner: string) returns (block: Node)
    ensures block == PublisherBlock(owner)
  {
    var publisher := new OpenElement(Q("pbcorePublisher"));
    var added := publisher.AddChild("publisher", owner, [], false);
    EmptyAppend(Child("publisher", owner, [], false));
    added := publisher.AddChild("publisherRole", "copyright holder", [], false);
    block := publisher.Value();
  }

  method NewRights(m: Metadata) returns (block: Node)
    requires HasAllKeys(m)
    ensures block == Rights(m)
  {
    var rights := new OpenElement(Q("pbcoreRightsSummary"));
    var added := rights.AddChild("rightsSummary", m["ICOP"], [], false);
    EmptyAppend(Child("rightsSummary", m["ICOP"], [], false));
    block := rights.Value();
  }

  /** The extension and its embedded element, each created with an empty
      text, the companion root appended to the inner one. */
  method NewExtension(companion: Node) returns (block: Node)
    ensures block == Extension(companion)
  {
    var embedded := new OpenElement(Q("extensionEmbedded"));
    embedded.Append(companion);
    EmptyAppend([companion]);
    var extension := new OpenElement(Q("instantiationExtension"));
    var inner := embedded.Value();
    extension.Append(inner);
    EmptyAppend([inner]);
    block := extension.Value();
  }

  method NewInstantiation(m: Metadata, infile: string, companion: Option<Node>) returns (block: Node)
    requires HasAllKeys(m)
    ensures block == Instantiation(m, infile, companion)
  {
    var instantiation := new OpenElement(Q("pbcoreInstantiation"));
    var added := instantiation.AddChild("instantiationIdentifier", m["OriginatorReference"], [("source", "local")], false);
    EmptyAppend(Child("instantiationIdentifier", m["OriginatorReference"], [("source", "local")], false));
    added := instantiation.AddChild("instantiationLocation", infile, [], false);
    added := instantiation.AddChild("instantiationDuration", Duration(m["Duration"]), [], false);
    added := instantiation.AddChild("instantiationLanguage", Language(m["language"]), [], false);
    if companion.Some? {
      var extension := NewExtension(companion.value);
      instantiation.Append(extension);
    }
    block := instantiation.Value();
  }

  method AddPublisher(root: OpenElement, m: Metadata)
    requires HasAllKeys(m)
    modifies root
    ensures root.children == old(root.children) + Publisher(m)
  {
    if m["owner"] != "" {
      var publisher := NewPublisher(m["owner"]);
      root.Append(publisher);
    }
  }

  /** Everything after the subjects. */
  method AddTail(root: OpenElement, m: Metadata, infile: string, companion: Option<Node>)
    requires HasAllKeys(m)
    modifies root
    ensures root.children == old(root.children) + Tail(m, infile, companion)
  {
    ghost var c0 := root.children;
    ghost var d, k, u, r, i, a := Description(m), Contributors(m), Publisher(m), [Rights(m)],
      [Instantiation(m, infile, companion)], Annotation(m);
    var added := root.AddChild("pbcoreDescription", m["xmp_description"], [], false);
    AddContributors(root, m);
    AppendAssoc(c0, d, k);
    AddPublisher(root, m);
    AppendAssoc(c0, d + k, u);
    var rights := NewRights(m);
    root.Append(rights);
    AppendAssoc(c0, d + k + u, r);
    var instantiation := NewInstantiation(m, infile, companion);
    root.Append(instantiation);
    AppendAssoc(c0, d + k + u + r, i);
    added := root.AddChild("pbcoreAnnotation", m["ISRC"], [("annotationType", "source collection")], false);
    AppendAssoc(c0, d + k + u + r + i, a);
  }

  /** The document for one audio file, built as the converter builds it. */
  method ConvertFile(m: Metadata, infile: string, companion: Option<Node>) returns (r: Result<Node, BuildError>)
    requires HasAllKeys(m)
    ensures r == Document(m, infile, companion)
  {
    var root := new OpenElement(Q(RootName));
    AddComments(root, infile);
    EmptyAppend(Comments(infile));
    AddHead(root, m);
    var ok := AddSubject(root, m, "topics", "topic");
    if !ok { return Failure(BlankItem("topics")); }
    ok := AddSubject(root, m, "names", "name");
    if !ok { return Failure(BlankItem("names")); }
    ok := AddSubject(root, m, "events", "period");
    if !ok { return Failure(BlankItem("events")); }
    ok := AddSubject(root, m, "places", "geographic");
    if !ok { return Failure(BlankItem("places")); }
    AddTail(root, m, infile, companion);
    r := Success(root.Value());
  }
}
