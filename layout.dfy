/**
 * The layout of an assembled PBCore document. Every child of the root has a
 * rank: 0 for the three opening comments, then ten times the position of its
 * element in the PBCore section order (asset type 1, asset date 2, identifier
 * 3, title 4, subject 5, description 6, contributor 7, publisher 8, rights 9,
 * instantiation 10, annotation 11), plus the position of its subject type
 * (topic, name, period, geographic) for a subject and of its role
 * (interviewer, interviewee, host, speaker, performer) for a contributor.
 * The document's children are sorted by rank, and each rank holds exactly
 * the part of the document that belongs there.
 */
module Layout {
  import opened Wrappers
  import opened Text
  import opened Wikidata
  import opened Xml
  import opened Seqs
  import opened Builder
  import opened Pbcore

  // ---------------------------------------------------------------------------
  // Ranks

  function SectionRank(e: string): (r: nat) {
    if e == "pbcoreAssetType" then 1
    else if e == "pbcoreAssetDate" then 2
    else if e == "pbcoreIdentifier" then 3
    else if e == "pbcoreTitle" then 4
    else if e == "pbcoreSubject" then 5
    else if e == "pbcoreDescription" then 6
    else if e == "pbcoreContributor" then 7
    else if e == "pbcorePublisher" then 8
    else if e == "pbcoreRightsSummary" then 9
    else if e == "pbcoreInstantiation" then 10
    else if e == "pbcoreAnnotation" then 11
    else 19
  }

  function SubjectTypeRank(t: Option<string>): (r: nat) {
    if t == Some("topic") then 0
    else if t == Some("name") then 1
    else if t == Some("period") then 2
    else if t == Some("geographic") then 3
    else 9
  }

  function RoleRank(role: string): (r: nat) {
    if role == "interviewer" then 0
    else if role == "interviewee" then 1
    else if role == "host" then 2
    else if role == "speaker" then 3
    else if role == "performer" then 4
    else 9
  }

  /** The position of a subject among the subjects, or of a contributor among
      the contributors; 0 for any other element. */
  function MinorRank(e: string, n: Node): (r: nat)
    requires n.Element?
  {
    if e == "pbcoreSubject" then SubjectTypeRank(Lookup(n.attrs, "subjectType"))
    else if e == "pbcoreContributor" && n.children != [] then RoleRank(n.children[|n.children| - 1].text)
    else 0
  }

  function RootRank(n: Node): (r: int) {
    if n.Comment? then 0
    else match LocalName(PbcoreNs, n.tag)
      case None => 200
      case Some(e) => 10 * SectionRank(e) + MinorRank(e, n)
  }

  lemma SectionRanks()
    ensures SectionRank("pbcoreAssetType") == 1 && SectionRank("pbcoreAssetDate") == 2
    ensures SectionRank("pbcoreIdentifier") == 3 && SectionRank("pbcoreTitle") == 4
    ensures SectionRank("pbcoreSubject") == 5 && SectionRank("pbcoreDescription") == 6
    ensures SectionRank("pbcoreContributor") == 7 && SectionRank("pbcorePublisher") == 8
    ensures SectionRank("pbcoreRightsSummary") == 9 && SectionRank("pbcoreInstantiation") == 10
    ensures SectionRank("pbcoreAnnotation") == 11
  {
    assert "pbcoreAssetDate"[11] != "pbcoreAssetType"[11];
    assert "pbcoreContributor"[6] != "pbcoreDescription"[6];
    assert "pbcorePublisher"[6] != "pbcoreAssetType"[6];
    assert "pbcorePublisher"[6] != "pbcoreAssetDate"[6];
    assert "pbcoreInstantiation"[6] != "pbcoreRightsSummary"[6];
    assert "pbcoreAnnotation"[6] != "pbcoreIdentifier"[6];
  }

  lemma RoleRanks()
    ensures RoleRank("interviewer") == 0 && RoleRank("interviewee") == 1 && RoleRank("host") == 2
    ensures RoleRank("speaker") == 3 && RoleRank("performer") == 4
  {
    assert "interviewee"[10] != "interviewer"[10];
  }

  // ---------------------------------------------------------------------------
  // The rank of each part

  /** An element of a section other than subject and contributor, in the
      default namespace, has ten times its section's rank. */
  lemma ElementRank(name: string, attrs: AttrMap, text: string, children: seq<Node>)
    requires name != "pbcoreSubject" && name != "pbcoreContributor"
    ensures RootRank(Element(Q(name), attrs, text, children)) == 10 * SectionRank(name)
  {
    QualifiedRoundTrip(PbcoreNs, name, Q(name));
  }

  lemma ChildRank(name: string, value: string, attrs: AttrMap, allowEmpty: bool)
    requires name != "pbcoreSubject" && name != "pbcoreContributor"
    ensures RanksWithin(Child(name, value, attrs, allowEmpty), RootRank, 10 * SectionRank(name), 10 * SectionRank(name))
  {
    ElementRank(name, attrs, value, []);
  }

  lemma HeadRank(m: Metadata)
    requires HasAllKeys(m)
    ensures SortedBy(Head(m), RootRank) && RanksWithin(Head(m), RootRank, 10, 40)
  {
    SectionRanks();
    var a := Child("pbcoreAssetType", m["form"], [], false);
    var b := Child("pbcoreAssetDate", m["ICRD"], [], false);
    var c := Child("pbcoreIdentifier", m["FileContent"], [("source", "local")], false);
    var d := Child("pbcoreTitle", m["INAM"], [], false);
    ChildRank("pbcoreAssetType", m["form"], [], false);
    ChildRank("pbcoreAssetDate", m["ICRD"], [], false);
    ChildRank("pbcoreIdentifier", m["FileContent"], [("source", "local")], false);
    ChildRank("pbcoreTitle", m["INAM"], [], false);
    ConstSorted(a, RootRank, 10);
    ConstSorted(b, RootRank, 20);
    ConstSorted(c, RootRank, 30);
    ConstSorted(d, RootRank, 40);
    SortedConcat(a, b, RootRank, 10, 10, 20, 20);
    SortedConcat(a + b, c, RootRank, 10, 20, 30, 30);
    SortedConcat(a + b + c, d, RootRank, 10, 30, 40, 40);
  }

  lemma SubjectElementRank(item: string, subjectType: string)
    ensures RootRank(ItemElement("pbcoreSubject", item, [("subjectType", subjectType)]))
      == 50 + SubjectTypeRank(Some(subjectType))
  {
    var attributes: AttrMap := [("subjectType", subjectType)];
    assert Lookup(attributes, "subjectType") == Some(subjectType);
    ItemElementAttrs("pbcoreSubject", item, attributes, "subjectType");
    QualifiedRoundTrip(PbcoreNs, "pbcoreSubject", Q("pbcoreSubject"));
    SectionRanks();
  }

  lemma SubjectElementsRank(items: seq<string>, subjectType: string)
    ensures RanksWithin(ItemElements("pbcoreSubject", items, [("subjectType", subjectType)]), RootRank,
      50 + SubjectTypeRank(Some(subjectType)), 50 + SubjectTypeRank(Some(subjectType)))
  {
    var attributes: AttrMap := [("subjectType", subjectType)];
    var nodes := ItemElements("pbcoreSubject", items, attributes);
    forall i | 0 <= i < |nodes|
      ensures RootRank(nodes[i]) == 50 + SubjectTypeRank(Some(subjectType))
    {
      ItemElementsAt("pbcoreSubject", items, attributes, i);
      SubjectElementRank(items[i], subjectType);
    }
  }

  /** Every element of a subject pass has the subject's rank plus its type's. */
  lemma SubjectRank(m: Metadata, field: string, subjectType: string)
    requires field in m && Subject(m, field, subjectType).ok
    ensures RanksWithin(Subject(m, field, subjectType).nodes, RootRank,
      50 + SubjectTypeRank(Some(subjectType)), 50 + SubjectTypeRank(Some(subjectType)))
  {
    MultivalueSpec("pbcoreSubject", m[field], [("subjectType", subjectType)]);
    if m[field] != "" {
      SubjectElementsRank(Split(m[field], ';'), subjectType);
    }
  }

  /** The subjects of each type have their own rank. */
  lemma TopicsRank(m: Metadata)
    requires HasAllKeys(m) && Topics(m).ok
    ensures RanksWithin(Topics(m).nodes, RootRank, 50, 50)
  {
    assert SubjectTypeRank(Some("topic")) == 0;
    SubjectRank(m, "topics", "topic");
  }

  lemma NamesRank(m: Metadata)
    requires HasAllKeys(m) && Names(m).ok
    ensures RanksWithin(Names(m).nodes, RootRank, 51, 51)
  {
    assert SubjectTypeRank(Some("name")) == 1;
    SubjectRank(m, "names", "name");
  }

  lemma EventsRank(m: Metadata)
    requires HasAllKeys(m) && Events(m).ok
    ensures RanksWithin(Events(m).nodes, RootRank, 52, 52)
  {
    assert SubjectTypeRank(Some("period")) == 2;
    SubjectRank(m, "events", "period");
  }

  lemma PlacesRank(m: Metadata)
    requires HasAllKeys(m) && Places(m).ok
    ensures RanksWithin(Places(m).nodes, RootRank, 53, 53)
  {
    assert SubjectTypeRank(Some("geographic")) == 3;
    SubjectRank(m, "places", "geographic");
  }

  /** Every block of a role has the contributor's rank plus the role's. */
  lemma RoleBlocksRank(m: Metadata, role: string)
    requires role in m && role != ""
    ensures RanksWithin(RoleBlocks(m, role), RootRank, 70 + RoleRank(role), 70 + RoleRank(role))
  {
    ContributorBlocksSpec("pbcoreContributor", "contributor", "contributorRole", m[role], role);
    SectionRanks();
    QualifiedRoundTrip(PbcoreNs, "pbcoreContributor", Q("pbcoreContributor"));
    assert "pbcoreContributor" != "pbcoreSubject";
  }

  lemma ContributorsRank(m: Metadata)
    requires HasAllKeys(m)
    ensures SortedBy(Contributors(m), RootRank) && RanksWithin(Contributors(m), RootRank, 70, 74)
  {
    RoleRanks();
    var a, b, c := RoleBlocks(m, "interviewer"), RoleBlocks(m, "interviewee"), RoleBlocks(m, "host");
    var d, e := RoleBlocks(m, "speaker"), RoleBlocks(m, "performer");
    RoleBlocksRank(m, "interviewer");
    RoleBlocksRank(m, "interviewee");
    RoleBlocksRank(m, "host");
    RoleBlocksRank(m, "speaker");
    RoleBlocksRank(m, "performer");
    ConstSorted(a, RootRank, 70);
    ConstSorted(b, RootRank, 71);
    ConstSorted(c, RootRank, 72);
    ConstSorted(d, RootRank, 73);
    ConstSorted(e, RootRank, 74);
    SortedConcat(a, b, RootRank, 70, 70, 71, 71);
    SortedConcat(a + b, c, RootRank, 70, 71, 72, 72);
    SortedConcat(a + b + c, d, RootRank, 70, 72, 73, 73);
    SortedConcat(a + b + c + d, e, RootRank, 70, 73, 74, 74);
  }

  lemma CommentsRank(infile: string)
    ensures RanksWithin(Comments(infile), RootRank, 0, 0)
  {
  }

  /** The ranks of the parts that are not subjects or contributors. */
  lemma FixedRanks(m: Metadata, infile: string, companion: Option<Node>)
    requires HasAllKeys(m)
    ensures RanksWithin(Description(m), RootRank, 60, 60)
    ensures RanksWithin(Publisher(m), RootRank, 80, 80)
    ensures RanksWithin([Rights(m)], RootRank, 90, 90)
    ensures RanksWithin([Instantiation(m, infile, companion)], RootRank, 100, 100)
    ensures RanksWithin(Annotation(m), RootRank, 110, 110)
  {
    SectionRanks();
    ChildRank("pbcoreDescription", m["xmp_description"], [], false);
    ChildRank("pbcoreAnnotation", m["ISRC"], [("annotationType", "source collection")], false);
    PublisherRank(m);
    RightsRank(m);
    InstantiationRank(m, infile, companion);
  }

  lemma PublisherRank(m: Metadata)
    requires HasAllKeys(m)
    ensures RanksWithin(Publisher(m), RootRank, 80, 80)
  {
    SectionRanks();
    var p := PublisherBlock(m["owner"]);
    ElementRank("pbcorePublisher", p.attrs, p.text, p.children);
  }

  lemma RightsRank(m: Metadata)
    requires HasAllKeys(m)
    ensures RanksWithin([Rights(m)], RootRank, 90, 90)
  {
    SectionRanks();
    var r := Rights(m);
    ElementRank("pbcoreRightsSummary", r.attrs, r.text, r.children);
  }

  lemma InstantiationRank(m: Metadata, infile: string, companion: Option<Node>)
    requires HasAllKeys(m)
    ensures RanksWithin([Instantiation(m, infile, companion)], RootRank, 100, 100)
  {
    SectionRanks();
    var n := Instantiation(m, infile, companion);
    ElementRank("pbcoreInstantiation", n.attrs, n.text, n.children);
  }

  // ---------------------------------------------------------------------------
  // The document

  /** The four subject passes of a record all run to the end. */
  predicate SubjectsOk(m: Metadata)
    requires HasAllKeys(m)
  {
    Topics(m).ok && Names(m).ok && Events(m).ok && Places(m).ok
  }

  /** The children of the root of a document that was built. */
  function Children(m: Metadata, infile: string, companion: Option<Node>): (r: seq<Node>)
    requires HasAllKeys(m)
  {
    RootChildren(m, infile, companion, Topics(m).nodes, Names(m).nodes, Events(m).nodes, Places(m).nodes)
  }

  /** A document is built exactly when no subject field holds a blank item;
      otherwise the first such field, in the order topics, names, events and
      places, is the one reported. A document that is built is the
      `pbcoreDescriptionDocument` element holding `Children`. */
  lemma DocumentOutcome(m: Metadata, infile: string, companion: Option<Node>)
    requires HasAllKeys(m)
    ensures Document(m, infile, companion).Success? <==>
      NoBlankItem(m["topics"]) && NoBlankItem(m["names"]) && NoBlankItem(m["events"]) && NoBlankItem(m["places"])
    ensures !NoBlankItem(m["topics"]) ==> Document(m, infile, companion) == Failure(BlankItem("topics"))
    ensures NoBlankItem(m["topics"]) && !NoBlankItem(m["names"]) ==>
      Document(m, infile, companion) == Failure(BlankItem("names"))
    ensures NoBlankItem(m["topics"]) && NoBlankItem(m["names"]) && !NoBlankItem(m["events"]) ==>
      Document(m, infile, companion) == Failure(BlankItem("events"))
    ensures NoBlankItem(m["topics"]) && NoBlankItem(m["names"]) && NoBlankItem(m["events"]) && !NoBlankItem(m["places"]) ==>
      Document(m, infile, companion) == Failure(BlankItem("places"))
    ensures Document(m, infile, companion).Success? ==>
      SubjectsOk(m) && Document(m, infile, companion).value == Element(Q(RootName), [], "", Children(m, infile, companion))
  {
    MultivalueSpec("pbcoreSubject", m["topics"], [("subjectType", "topic")]);
    MultivalueSpec("pbcoreSubject", m["names"], [("subjectType", "name")]);
    MultivalueSpec("pbcoreSubject", m["events"], [("subjectType", "period")]);
    MultivalueSpec("pbcoreSubject", m["places"], [("subjectType", "geographic")]);
  }

  /** The subject field reported when a document is not built: the first,
      in the order topics, names, events and places, that holds a blank item. */
  function BlankField(m: Metadata): (f: string)
    requires HasAllKeys(m) && !SubjectsOk(m)
    ensures f in m && !NoBlankItem(m[f])
  {
    DocumentOutcome(m, "", None);
    if !NoBlankItem(m["topics"]) then "topics"
    else if !NoBlankItem(m["names"]) then "names"
    else if !NoBlankItem(m["events"]) then "events"
    else "places"
  }

  /** A record whose subjects hold a blank item gives no document, whatever
      the file and its companion, and the error names `BlankField`. */
  lemma BlankReported(m: Metadata, infile: string, companion: Option<Node>)
    requires HasAllKeys(m) && !SubjectsOk(m)
    ensures Document(m, infile, companion) == Failure(BlankItem(BlankField(m)))
  {
    DocumentOutcome(m, infile, companion);
  }

  /** The children of the root never go back in the PBCore section order,
      nor, within the subjects and the contributors, in the order of their
      types and roles. */
  lemma ChildrenSorted(m: Metadata, infile: string, companion: Option<Node>)
    requires HasAllKeys(m) && SubjectsOk(m)
    ensures SortedBy(Children(m, infile, companion), RootRank)
    ensures RanksWithin(Children(m, infile, companion), RootRank, 0, 110)
  {
    FrontSorted(m, infile);
    TailSorted(m, infile, companion);
    SortedConcat(Comments(infile) + Head(m) + Topics(m).nodes + Names(m).nodes + Events(m).nodes + Places(m).nodes,
      Tail(m, infile, companion), RootRank, 0, 53, 60, 110);
  }

  /** The comments, the head and the subjects, in order. */
  lemma FrontSorted(m: Metadata, infile: string)
    requires HasAllKeys(m) && SubjectsOk(m)
    ensures var f := Comments(infile) + Head(m) + Topics(m).nodes + Names(m).nodes + Events(m).nodes + Places(m).nodes;
      SortedBy(f, RootRank) && RanksWithin(f, RootRank, 0, 53)
  {
    CommentsRank(infile);
    HeadRank(m);
    TopicsRank(m);
    NamesRank(m);
    EventsRank(m);
    PlacesRank(m);
    FrontChain(Comments(infile), Head(m), Topics(m).nodes, Names(m).nodes, Events(m).nodes, Places(m).nodes, RootRank);
  }

  /** Description, contributors, publisher, rights, instantiation and
      annotation, in order. */
  lemma TailSorted(m: Metadata, infile: string, companion: Option<Node>)
    requires HasAllKeys(m)
    ensures SortedBy(Tail(m, infile, companion), RootRank) && RanksWithin(Tail(m, infile, companion), RootRank, 60, 110)
  {
    FixedRanks(m, infile, companion);
    ContributorsRank(m);
    TailChain(Description(m), Contributors(m), Publisher(m), [Rights(m)], [Instantiation(m, infile, companion)], Annotation(m), RootRank);
  }

  lemma FrontChain(c: seq<Node>, h: seq<Node>, t: seq<Node>, n: seq<Node>, e: seq<Node>, p: seq<Node>, rank: Node -> int)
    requires RanksWithin(c, rank, 0, 0) && SortedBy(h, rank) && RanksWithin(h, rank, 10, 40)
    requires RanksWithin(t, rank, 50, 50) && RanksWithin(n, rank, 51, 51)
    requires RanksWithin(e, rank, 52, 52) && RanksWithin(p, rank, 53, 53)
    ensures SortedBy(c + h + t + n + e + p, rank) && RanksWithin(c + h + t + n + e + p, rank, 0, 53)
  {
    ConstSorted(c, rank, 0);
    ConstSorted(t, rank, 50);
    ConstSorted(n, rank, 51);
    ConstSorted(e, rank, 52);
    ConstSorted(p, rank, 53);
    SortedConcat(c, h, rank, 0, 0, 10, 40);
    SortedConcat(c + h, t, rank, 0, 40, 50, 50);
    SortedConcat(c + h + t, n, rank, 0, 50, 51, 51);
    SortedConcat(c + h + t + n, e, rank, 0, 51, 52, 52);
    SortedConcat(c + h + t + n + e, p, rank, 0, 52, 53, 53);
  }

  lemma TailChain(d: seq<Node>, k: seq<Node>, u: seq<Node>, r: seq<Node>, i: seq<Node>, a: seq<Node>, rank: Node -> int)
    requires RanksWithin(d, rank, 60, 60) && SortedBy(k, rank) && RanksWithin(k, rank, 70, 74)
    requires RanksWithin(u, rank, 80, 80) && RanksWithin(r, rank, 90, 90)
    requires RanksWithin(i, rank, 100, 100) && RanksWithin(a, rank, 110, 110)
    ensures SortedBy(d + k + u + r + i + a, rank) && RanksWithin(d + k + u + r + i + a, rank, 60, 110)
  {
    ConstSorted(d, rank, 60);
    ConstSorted(u, rank, 80);
    ConstSorted(r, rank, 90);
    ConstSorted(i, rank, 100);
    ConstSorted(a, rank, 110);
    SortedConcat(d, k, rank, 60, 60, 70, 74);
    SortedConcat(d + k, u, rank, 60, 74, 80, 80);
    SortedConcat(d + k + u, r, rank, 60, 80, 90, 90);
    SortedConcat(d + k + u + r, i, rank, 60, 90, 100, 100);
    SortedConcat(d + k + u + r + i, a, rank, 60, 100, 110, 110);
  }

  // ---------------------------------------------------------------------------
  // What each rank holds

  lemma FrontPieces(c: seq<Node>, h: seq<Node>, t: seq<Node>, n: seq<Node>, e: seq<Node>, p: seq<Node>, k: int, rank: Node -> int)
    requires RanksWithin(c, rank, 0, 0) && RanksWithin(h, rank, 10, 40)
    requires RanksWithin(t, rank, 50, 50) && RanksWithin(n, rank, 51, 51)
    requires RanksWithin(e, rank, 52, 52) && RanksWithin(p, rank, 53, 53)
    requires k == 0 || 50 <= k
    ensures Filter(c + h + t + n + e + p, rank, k) ==
      if k == 0 then c else if k == 50 then t else if k == 51 then n
      else if k == 52 then e else if k == 53 then p else []
  {
    FilterWithin(c, rank, 0, 0, k);
    FilterStep(c, h, rank, 10, 40, k);
    FilterStep(c + h, t, rank, 50, 50, k);
    FilterStep(c + h + t, n, rank, 51, 51, k);
    FilterStep(c + h + t + n, e, rank, 52, 52, k);
    FilterStep(c + h + t + n + e, p, rank, 53, 53, k);
  }

  lemma TailPieces(d: seq<Node>, q: seq<Node>, u: seq<Node>, r: seq<Node>, i: seq<Node>, a: seq<Node>, k: int, rank: Node -> int)
    requires RanksWithin(d, rank, 60, 60) && RanksWithin(q, rank, 70, 74)
    requires RanksWithin(u, rank, 80, 80) && RanksWithin(r, rank, 90, 90)
    requires RanksWithin(i, rank, 100, 100) && RanksWithin(a, rank, 110, 110)
    requires k < 70 || 74 < k
    ensures Filter(d + q + u + r + i + a, rank, k) ==
      if k == 60 then d else if k == 80 then u else if k == 90 then r
      else if k == 100 then i else if k == 110 then a else []
  {
    FilterWithin(d, rank, 60, 60, k);
    FilterStep(d, q, rank, 70, 74, k);
    FilterStep(d + q, u, rank, 80, 80, k);
    FilterStep(d + q + u, r, rank, 90, 90, k);
    FilterStep(d + q + u + r, i, rank, 100, 100, k);
    FilterStep(d + q + u + r + i, a, rank, 110, 110, k);
  }

  /** The range of ranks of each part of the root. */
  lemma PartsRanks(m: Metadata, infile: string, companion: Option<Node>)
    requires HasAllKeys(m) && SubjectsOk(m)
    ensures RanksWithin(Comments(infile), RootRank, 0, 0) && RanksWithin(Head(m), RootRank, 10, 40)
    ensures RanksWithin(Topics(m).nodes, RootRank, 50, 50) && RanksWithin(Names(m).nodes, RootRank, 51, 51)
    ensures RanksWithin(Events(m).nodes, RootRank, 52, 52) && RanksWithin(Places(m).nodes, RootRank, 53, 53)
    ensures RanksWithin(Description(m), RootRank, 60, 60) && RanksWithin(Contributors(m), RootRank, 70, 74)
    ensures RanksWithin(Publisher(m), RootRank, 80, 80) && RanksWithin([Rights(m)], RootRank, 90, 90)
    ensures RanksWithin([Instantiation(m, infile, companion)], RootRank, 100, 100)
    ensures RanksWithin(Annotation(m), RootRank, 110, 110)
  {
    CommentsRank(infile);
    HeadRank(m);
    TopicsRank(m);
    NamesRank(m);
    EventsRank(m);
    PlacesRank(m);
    FixedRanks(m, infile, companion);
    ContributorsRank(m);
  }

  /** The children of rank `k` split into those before the description and
      those from it on. */
  lemma SectionSplit(m: Metadata, infile: string, companion: Option<Node>, k: int)
    requires HasAllKeys(m) && SubjectsOk(m)
    ensures var c, h, t, n, e, p := Comments(infile), Head(m), Topics(m).nodes, Names(m).nodes, Events(m).nodes, Places(m).nodes;
      var d, q, u, r, i, a := Description(m), Contributors(m), Publisher(m), [Rights(m)], [Instantiation(m, infile, companion)], Annotation(m);
      Filter(Children(m, infile, companion), RootRank, k) ==
        Filter(c + h + t + n + e + p, RootRank, k) + Filter(d + q + u + r + i + a, RootRank, k)
  {
    var f := Comments(infile) + Head(m) + Topics(m).nodes + Names(m).nodes + Events(m).nodes + Places(m).nodes;
    FilterAppend(f, Tail(m, infile, companion), RootRank, k);
  }

  /** The subjects of each type are exactly the elements of that type's pass. */
  lemma SubjectSections(m: Metadata, infile: string, companion: Option<Node>)
    requires HasAllKeys(m) && SubjectsOk(m)
    ensures Filter(Children(m, infile, companion), RootRank, 50) == Topics(m).nodes
    ensures Filter(Children(m, infile, companion), RootRank, 51) == Names(m).nodes
    ensures Filter(Children(m, infile, companion), RootRank, 52) == Events(m).nodes
    ensures Filter(Children(m, infile, companion), RootRank, 53) == Places(m).nodes
  {
    PartsRanks(m, infile, companion);
    var c, h, t, n, e, p := Comments(infile), Head(m), Topics(m).nodes, Names(m).nodes, Events(m).nodes, Places(m).nodes;
    var d, q, u, r, i, a := Description(m), Contributors(m), Publisher(m), [Rights(m)], [Instantiation(m, infile, companion)], Annotation(m);
    forall k | 50 <= k <= 53
      ensures Filter(Children(m, infile, companion), RootRank, k) == if k == 50 then t else if k == 51 then n else if k == 52 then e else p
    {
      SectionSplit(m, infile, companion, k);
      FrontPieces(c, h, t, n, e, p, k, RootRank);
      TailPieces(d, q, u, r, i, a, k, RootRank);
    }
  }

  /** The children of one rank among the publisher, rights, instantiation
      and annotation sections. */
  lemma FixedSection(m: Metadata, infile: string, companion: Option<Node>, k: int)
    requires HasAllKeys(m) && SubjectsOk(m)
    requires k == 80 || k == 90 || k == 100 || k == 110
    ensures Filter(Children(m, infile, companion), RootRank, k) ==
      if k == 80 then Publisher(m) else if k == 90 then [Rights(m)]
      else if k == 100 then [Instantiation(m, infile, companion)] else Annotation(m)
  {
    PartsRanks(m, infile, companion);
    var c, h, t, n, e, p := Comments(infile), Head(m), Topics(m).nodes, Names(m).nodes, Events(m).nodes, Places(m).nodes;
    var d, q, u, r, i, a := Description(m), Contributors(m), Publisher(m), [Rights(m)], [Instantiation(m, infile, companion)], Annotation(m);
    SectionSplit(m, infile, companion, k);
    FrontPieces(c, h, t, n, e, p, k, RootRank);
    TailPieces(d, q, u, r, i, a, k, RootRank);
  }

  /** The document holds a publisher block exactly when the record names an
      owner, and then only the one. */
  lemma PublisherIffOwner(m: Metadata, infile: string, companion: Option<Node>)
    requires HasAllKeys(m) && SubjectsOk(m)
    ensures m["owner"] != "" ==> Filter(Children(m, infile, companion), RootRank, 80) == [PublisherBlock(m["owner"])]
    ensures m["owner"] == "" ==> Filter(Children(m, infile, companion), RootRank, 80) == []
  {
    FixedSection(m, infile, companion, 80);
  }

  /** The document holds exactly one rights block. */
  lemma OneRights(m: Metadata, infile: string, companion: Option<Node>)
    requires HasAllKeys(m) && SubjectsOk(m)
    ensures Filter(Children(m, infile, companion), RootRank, 90) == [Rights(m)]
  {
    FixedSection(m, infile, companion, 90);
  }

  /** The document holds exactly one instantiation. */
  lemma OneInstantiation(m: Metadata, infile: string, companion: Option<Node>)
    requires HasAllKeys(m) && SubjectsOk(m)
    ensures Filter(Children(m, infile, companion), RootRank, 100) == [Instantiation(m, infile, companion)]
  {
    FixedSection(m, infile, companion, 100);
  }

  /** The annotation, when there is one, is the only child of its rank. */
  lemma AnnotationSection(m: Metadata, infile: string, companion: Option<Node>)
    requires HasAllKeys(m) && SubjectsOk(m)
    ensures Filter(Children(m, infile, companion), RootRank, 110) == Annotation(m)
  {
    FixedSection(m, infile, companion, 110);
  }

  /** The children of the first parts of rank `k` within the head are those of the head. */
  lemma HeadPieces(c: seq<Node>, h: seq<Node>, t: seq<Node>, n: seq<Node>, e: seq<Node>, p: seq<Node>, k: int, rank: Node -> int)
    requires RanksWithin(c, rank, 0, 0)
    requires RanksWithin(t, rank, 50, 50) && RanksWithin(n, rank, 51, 51)
    requires RanksWithin(e, rank, 52, 52) && RanksWithin(p, rank, 53, 53)
    requires 10 <= k <= 40
    ensures Filter(c + h + t + n + e + p, rank, k) == Filter(h, rank, k)
  {
    FilterWithin(c, rank, 0, 0, k);
    FilterAppend(c, h, rank, k);
    FilterStep(c + h, t, rank, 50, 50, k);
    FilterStep(c + h + t, n, rank, 51, 51, k);
    FilterStep(c + h + t + n, e, rank, 52, 52, k);
    FilterStep(c + h + t + n + e, p, rank, 53, 53, k);
  }

  /** The children of the last parts of rank `k` within the contributors are
      those of the contributors. */
  lemma ContributorPieces(d: seq<Node>, q: seq<Node>, u: seq<Node>, r: seq<Node>, i: seq<Node>, a: seq<Node>, k: int, rank: Node -> int)
    requires RanksWithin(d, rank, 60, 60)
    requires RanksWithin(u, rank, 80, 80) && RanksWithin(r, rank, 90, 90)
    requires RanksWithin(i, rank, 100, 100) && RanksWithin(a, rank, 110, 110)
    requires 70 <= k <= 74
    ensures Filter(d + q + u + r + i + a, rank, k) == Filter(q, rank, k)
  {
    FilterWithin(d, rank, 60, 60, k);
    FilterAppend(d, q, rank, k);
    FilterStep(d + q, u, rank, 80, 80, k);
    FilterStep(d + q + u, r, rank, 90, 90, k);
    FilterStep(d + q + u + r, i, rank, 100, 100, k);
    FilterStep(d + q + u + r + i, a, rank, 110, 110, k);
  }

  /** Four consecutive parts of ranks 10, 20, 30 and 40. */
  lemma FourPieces(a: seq<Node>, b: seq<Node>, c: seq<Node>, d: seq<Node>, k: int, rank: Node -> int)
    requires RanksWithin(a, rank, 10, 10) && RanksWithin(b, rank, 20, 20)
    requires RanksWithin(c, rank, 30, 30) && RanksWithin(d, rank, 40, 40)
    requires k == 10 || k == 20 || k == 30 || k == 40
    ensures Filter(a + b + c + d, rank, k) == if k == 10 then a else if k == 20 then b else if k == 30 then c else d
  {
    FilterWithin(a, rank, 10, 10, k);
    FilterStep(a, b, rank, 20, 20, k);
    FilterStep(a + b, c, rank, 30, 30, k);
    FilterStep(a + b + c, d, rank, 40, 40, k);
  }

  /** Five consecutive parts of ranks 70 to 74. */
  lemma FivePieces(a: seq<Node>, b: seq<Node>, c: seq<Node>, d: seq<Node>, e: seq<Node>, k: int, rank: Node -> int)
    requires RanksWithin(a, rank, 70, 70) && RanksWithin(b, rank, 71, 71)
    requires RanksWithin(c, rank, 72, 72) && RanksWithin(d, rank, 73, 73)
    requires RanksWithin(e, rank, 74, 74)
    requires 70 <= k <= 74
    ensures Filter(a + b + c + d + e, rank, k) ==
      if k == 70 then a else if k == 71 then b else if k == 72 then c else if k == 73 then d else e
  {
    FilterWithin(a, rank, 70, 70, k);
    FilterStep(a, b, rank, 71, 71, k);
    FilterStep(a + b, c, rank, 72, 72, k);
    FilterStep(a + b + c, d, rank, 73, 73, k);
    FilterStep(a + b + c + d, e, rank, 74, 74, k);
  }

  /** The children of one rank of the head, among those of the whole root. */
  lemma HeadSection(m: Metadata, infile: string, companion: Option<Node>, k: int)
    requires HasAllKeys(m) && SubjectsOk(m)
    requires k == 10 || k == 20 || k == 30 || k == 40
    ensures Filter(Children(m, infile, companion), RootRank, k) == Filter(Head(m), RootRank, k)
  {
    PartsRanks(m, infile, companion);
    var c, h, t, n, e, p := Comments(infile), Head(m), Topics(m).nodes, Names(m).nodes, Events(m).nodes, Places(m).nodes;
    var d, q, u, r, i, a := Description(m), Contributors(m), Publisher(m), [Rights(m)], [Instantiation(m, infile, companion)], Annotation(m);
    SectionSplit(m, infile, companion, k);
    HeadPieces(c, h, t, n, e, p, k, RootRank);
    TailPieces(d, q, u, r, i, a, k, RootRank);
  }

  /** The asset type, asset date, identifier and title sections each hold
      that element of the head, or nothing when its value is empty. */
  lemma HeadSections(m: Metadata, infile: string, companion: Option<Node>)
    requires HasAllKeys(m) && SubjectsOk(m)
    ensures Filter(Children(m, infile, companion), RootRank, 10) == Child("pbcoreAssetType", m["form"], [], false)
    ensures Filter(Children(m, infile, companion), RootRank, 20) == Child("pbcoreAssetDate", m["ICRD"], [], false)
    ensures Filter(Children(m, infile, companion), RootRank, 30) == Child("pbcoreIdentifier", m["FileContent"], [("source", "local")], false)
    ensures Filter(Children(m, infile, companion), RootRank, 40) == Child("pbcoreTitle", m["INAM"], [], false)
  {
    SectionRanks();
    var a := Child("pbcoreAssetType", m["form"], [], false);
    var b := Child("pbcoreAssetDate", m["ICRD"], [], false);
    var c := Child("pbcoreIdentifier", m["FileContent"], [("source", "local")], false);
    var d := Child("pbcoreTitle", m["INAM"], [], false);
    ChildRank("pbcoreAssetType", m["form"], [], false);
    ChildRank("pbcoreAssetDate", m["ICRD"], [], false);
    ChildRank("pbcoreIdentifier", m["FileContent"], [("source", "local")], false);
    ChildRank("pbcoreTitle", m["INAM"], [], false);
    forall k | k == 10 || k == 20 || k == 30 || k == 40
      ensures Filter(Children(m, infile, companion), RootRank, k) == if k == 10 then a else if k == 20 then b else if k == 30 then c else d
    {
      HeadSection(m, infile, companion, k);
      FourPieces(a, b, c, d, k, RootRank);
    }
  }

  /** The description section holds the description, or nothing when it is empty. */
  lemma DescriptionSection(m: Metadata, infile: string, companion: Option<Node>)
    requires HasAllKeys(m) && SubjectsOk(m)
    ensures Filter(Children(m, infile, companion), RootRank, 60) == Child("pbcoreDescription", m["xmp_description"], [], false)
  {
    PartsRanks(m, infile, companion);
    var c, h, t, n, e, p := Comments(infile), Head(m), Topics(m).nodes, Names(m).nodes, Events(m).nodes, Places(m).nodes;
    var d, q, u, r, i, a := Description(m), Contributors(m), Publisher(m), [Rights(m)], [Instantiation(m, infile, companion)], Annotation(m);
    SectionSplit(m, infile, companion, 60);
    FrontPieces(c, h, t, n, e, p, 60, RootRank);
    TailPieces(d, q, u, r, i, a, 60, RootRank);
  }

  /** The children of one contributor rank, among those of the whole root. */
  lemma ContributorSection(m: Metadata, infile: string, companion: Option<Node>, k: int)
    requires HasAllKeys(m) && SubjectsOk(m)
    requires 70 <= k <= 74
    ensures Filter(Children(m, infile, companion), RootRank, k) == Filter(Contributors(m), RootRank, k)
  {
    PartsRanks(m, infile, companion);
    var c, h, t, n, e, p := Comments(infile), Head(m), Topics(m).nodes, Names(m).nodes, Events(m).nodes, Places(m).nodes;
    var d, q, u, r, i, a := Description(m), Contributors(m), Publisher(m), [Rights(m)], [Instantiation(m, infile, companion)], Annotation(m);
    SectionSplit(m, infile, companion, k);
    FrontPieces(c, h, t, n, e, p, k, RootRank);
    ContributorPieces(d, q, u, r, i, a, k, RootRank);
  }

  /** Each contributor role has its own section, holding the blocks read
      from the field of that role, in order. */
  lemma ContributorSections(m: Metadata, infile: string, companion: Option<Node>)
    requires HasAllKeys(m) && SubjectsOk(m)
    ensures Filter(Children(m, infile, companion), RootRank, 70) == RoleBlocks(m, "interviewer")
    ensures Filter(Children(m, infile, companion), RootRank, 71) == RoleBlocks(m, "interviewee")
    ensures Filter(Children(m, infile, companion), RootRank, 72) == RoleBlocks(m, "host")
    ensures Filter(Children(m, infile, companion), RootRank, 73) == RoleBlocks(m, "speaker")
    ensures Filter(Children(m, infile, companion), RootRank, 74) == RoleBlocks(m, "performer")
  {
    RoleRanks();
    var a, b, c := RoleBlocks(m, "interviewer"), RoleBlocks(m, "interviewee"), RoleBlocks(m, "host");
    var d, e := RoleBlocks(m, "speaker"), RoleBlocks(m, "performer");
    RoleBlocksRank(m, "interviewer");
    RoleBlocksRank(m, "interviewee");
    RoleBlocksRank(m, "host");
    RoleBlocksRank(m, "speaker");
    RoleBlocksRank(m, "performer");
    forall k | 70 <= k <= 74
      ensures Filter(Children(m, infile, companion), RootRank, k) ==
        if k == 70 then a else if k == 71 then b else if k == 72 then c else if k == 73 then d else e
    {
      ContributorSection(m, infile, companion, k);
      FivePieces(a, b, c, d, e, k, RootRank);
    }
  }

  /** The ranks a child of the root can have: one per section, subject type
      and contributor role. */
  const SectionRankValues: set<int> := {0, 10, 20, 30, 40, 50, 51, 52, 53, 60, 70, 71, 72, 73, 74, 80, 90, 100, 110}

  lemma HeadRanksIn(m: Metadata)
    requires HasAllKeys(m)
    ensures RanksIn(Head(m), RootRank, SectionRankValues)
  {
    SectionRanks();
    var a := Child("pbcoreAssetType", m["form"], [], false);
    var b := Child("pbcoreAssetDate", m["ICRD"], [], false);
    var c := Child("pbcoreIdentifier", m["FileContent"], [("source", "local")], false);
    var d := Child("pbcoreTitle", m["INAM"], [], false);
    ChildRank("pbcoreAssetType", m["form"], [], false);
    ChildRank("pbcoreAssetDate", m["ICRD"], [], false);
    ChildRank("pbcoreIdentifier", m["FileContent"], [("source", "local")], false);
    ChildRank("pbcoreTitle", m["INAM"], [], false);
    RanksWithinIn(a, RootRank, 10, SectionRankValues);
    RanksWithinIn(b, RootRank, 20, SectionRankValues);
    RanksWithinIn(c, RootRank, 30, SectionRankValues);
    RanksWithinIn(d, RootRank, 40, SectionRankValues);
    RanksInConcat(a, b, RootRank, SectionRankValues);
    RanksInConcat(a + b, c, RootRank, SectionRankValues);
    RanksInConcat(a + b + c, d, RootRank, SectionRankValues);
  }

  lemma ContributorsRanksIn(m: Metadata)
    requires HasAllKeys(m)
    ensures RanksIn(Contributors(m), RootRank, SectionRankValues)
  {
    RoleRanks();
    var a, b, c := RoleBlocks(m, "interviewer"), RoleBlocks(m, "interviewee"), RoleBlocks(m, "host");
    var d, e := RoleBlocks(m, "speaker"), RoleBlocks(m, "performer");
    RoleBlocksRank(m, "interviewer");
    RoleBlocksRank(m, "interviewee");
    RoleBlocksRank(m, "host");
    RoleBlocksRank(m, "speaker");
    RoleBlocksRank(m, "performer");
    RanksWithinIn(a, RootRank, 70, SectionRankValues);
    RanksWithinIn(b, RootRank, 71, SectionRankValues);
    RanksWithinIn(c, RootRank, 72, SectionRankValues);
    RanksWithinIn(d, RootRank, 73, SectionRankValues);
    RanksWithinIn(e, RootRank, 74, SectionRankValues);
    RanksInConcat(a, b, RootRank, SectionRankValues);
    RanksInConcat(a + b, c, RootRank, SectionRankValues);
    RanksInConcat(a + b + c, d, RootRank, SectionRankValues);
    RanksInConcat(a + b + c + d, e, RootRank, SectionRankValues);
  }

  lemma TailRanksIn(m: Metadata, infile: string, companion: Option<Node>)
    requires HasAllKeys(m)
    ensures RanksIn(Tail(m, infile, companion), RootRank, SectionRankValues)
  {
    FixedRanks(m, infile, companion);
    ContributorsRanksIn(m);
    var d, q, u, r, i, a := Description(m), Contributors(m), Publisher(m), [Rights(m)], [Instantiation(m, infile, companion)], Annotation(m);
    RanksWithinIn(d, RootRank, 60, SectionRankValues);
    RanksWithinIn(u, RootRank, 80, SectionRankValues);
    RanksWithinIn(r, RootRank, 90, SectionRankValues);
    RanksWithinIn(i, RootRank, 100, SectionRankValues);
    RanksWithinIn(a, RootRank, 110, SectionRankValues);
    RanksInConcat(d, q, RootRank, SectionRankValues);
    RanksInConcat(d + q, u, RootRank, SectionRankValues);
    RanksInConcat(d + q + u, r, RootRank, SectionRankValues);
    RanksInConcat(d + q + u + r, i, RootRank, SectionRankValues);
    RanksInConcat(d + q + u + r + i, a, RootRank, SectionRankValues);
  }

  /** Every child of the root has the rank of a section, a subject type or a
      contributor role: the document holds nothing outside these sections. */
  lemma ChildrenRanks(m: Metadata, infile: string, companion: Option<Node>)
    requires HasAllKeys(m) && SubjectsOk(m)
    ensures forall i :: 0 <= i < |Children(m, infile, companion)| ==>
      RootRank(Children(m, infile, companion)[i]) in SectionRankValues
  {
    CommentsRank(infile);
    TopicsRank(m);
    NamesRank(m);
    EventsRank(m);
    PlacesRank(m);
    HeadRanksIn(m);
    TailRanksIn(m, infile, companion);
    var c, h, t, n, e, p := Comments(infile), Head(m), Topics(m).nodes, Names(m).nodes, Events(m).nodes, Places(m).nodes;
    RanksWithinIn(c, RootRank, 0, SectionRankValues);
    RanksWithinIn(t, RootRank, 50, SectionRankValues);
    RanksWithinIn(n, RootRank, 51, SectionRankValues);
    RanksWithinIn(e, RootRank, 52, SectionRankValues);
    RanksWithinIn(p, RootRank, 53, SectionRankValues);
    RanksInConcat(c, h, RootRank, SectionRankValues);
    RanksInConcat(c + h, t, RootRank, SectionRankValues);
    RanksInConcat(c + h + t, n, RootRank, SectionRankValues);
    RanksInConcat(c + h + t + n, e, RootRank, SectionRankValues);
    RanksInConcat(c + h + t + n + e, p, RootRank, SectionRankValues);
    RanksInConcat(c + h + t + n + e + p, Tail(m, infile, companion), RootRank, SectionRankValues);
  }

  /** The document opens with its three comments. */
  lemma ChildrenOpen(m: Metadata, infile: string, companion: Option<Node>)
    requires HasAllKeys(m)
    ensures |Children(m, infile, companion)| >= 3 && Children(m, infile, companion)[..3] == Comments(infile)
  {
    var c := Comments(infile);
    var h := Head(m);
    var t, n, e, p := Topics(m).nodes, Names(m).nodes, Events(m).nodes, Places(m).nodes;
    PrefixExtend(c, h, 3);
    PrefixExtend(c + h, t, 3);
    PrefixExtend(c + h + t, n, 3);
    PrefixExtend(c + h + t + n, e, 3);
    PrefixExtend(c + h + t + n + e, p, 3);
    PrefixExtend(c + h + t + n + e + p, Tail(m, infile, companion), 3);
  }

  // ---------------------------------------------------------------------------
  // The instantiation

  /** A qualified name is as long as its local name plus the namespace part. */
  lemma QLength(name: string)
    ensures |Q(name)| == |Q("")| + |name|
  {
  }

  /** None of the four descriptive children is an extension. */
  lemma CoreTags(m: Metadata, infile: string)
    requires HasAllKeys(m)
    ensures forall n :: n in InstantiationCore(m, infile) ==> n.Element? && n.tag != Q("instantiationExtension")
  {
    QLength("instantiationExtension");
    QLength("instantiationIdentifier");
    QLength("instantiationLocation");
    QLength("instantiationDuration");
    QLength("instantiationLanguage");
  }

  /** The instantiation holds its descriptive children first and then the
      embedded companion exactly when there is one; no other child is an
      extension. */
  lemma InstantiationShape(m: Metadata, infile: string, companion: Option<Node>)
    requires HasAllKeys(m)
    ensures var core, ch := InstantiationCore(m, infile), Instantiation(m, infile, companion).children;
      && |ch| == |core| + (if companion.Some? then 1 else 0)
      && ch[..|core|] == core
      && (companion.Some? ==> ch[|ch| - 1] == Extension(companion.value))
      && forall k :: 0 <= k < |ch| && ch[k].Element? && ch[k].tag == Q("instantiationExtension") ==>
           companion.Some? && k == |ch| - 1
  {
    var core, ch := InstantiationCore(m, infile), Instantiation(m, infile, companion).children;
    CoreTags(m, infile);
    forall k | 0 <= k < |core| ensures ch[k] == core[k] && ch[k] in core { }
  }
}
