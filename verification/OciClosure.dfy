/** What acceptance of a release layout implies: four distinct manifests, images and attestations
    in one-to-one correspondence, and a store that holds exactly what the root index reaches
    (scripts/validate_release_oci.py, validate_layout). */
module OciClosure {
  import opened Common
  import opened OciLayout
  import opened OciValidation

  // ---------- Pairing ----------

  /** The keys of an image manifest and of an attestation manifest exclude each other, so one blob
      cannot be both. */
  lemma NeverBothManifests(blobs: Blobs, digest: string, platform: string, image: string)
    requires ImageOk(blobs, digest, platform)
    ensures !AttestationOk(blobs, digest, image)
  {
    hide ImageConfigOk, AttestationConfigOk, LayersOk, SubjectOk, JsonBlob;
    var m := JsonBlob(blobs, digest).value;
    assert ManifestShape(m, false);
    assert "subject" in ATTESTATION_KEYS;
    assert "subject" !in IMAGE_KEYS by {
      assert |"subject"| == 7 && |"schemaVersion"| == 13 && |"mediaType"| == 9 && |"config"| == 6 && |"layers"| == 6;
    }
    assert !HasKeys(m, ATTESTATION_KEYS);
  }

  lemma AnyTwoApart(blobs: Blobs, es: seq<Json>, i: nat, j: nat)
    requires EntriesOk(blobs, es) && i < |es| && j < |es| && i != j
    ensures IsImage(es[i]) && IsImage(es[j]) ==> PlatformName(es[i]) != PlatformName(es[j])
    ensures IsAttestation(es[i]) && IsAttestation(es[j]) ==>
      ReferenceOf(es[i]) != ReferenceOf(es[j]) && DigestOf(es[i]) != DigestOf(es[j])
  {
    hide EntryOk, IsImage, IsAttestation, PlatformName, ReferenceOf, DigestOf;
    if i < j {
      assert Apart(es[i], es[j]);
    } else {
      assert Apart(es[j], es[i]);
    }
  }

  /** The four entries: the two images first, then the attestation of each. */
  ghost predicate Roles(es: seq<Json>, a: nat, b: nat, c: nat, d: nat) {
    && |es| == 4 && a < 4 && b < 4 && c < 4 && d < 4
    && a != b && a != c && a != d && b != c && b != d && c != d
    && IsImage(es[a]) && PlatformName(es[a]) == AMD64
    && IsImage(es[b]) && PlatformName(es[b]) == ARM64
    && IsAttestation(es[c]) && ReferenceOf(es[c]) == DigestOf(es[a])
    && IsAttestation(es[d]) && ReferenceOf(es[d]) == DigestOf(es[b])
  }

  lemma PlatformsDiffer()
    ensures AMD64 != ARM64
  {
    assert AMD64[7] == 'm' && ARM64[7] == 'r';
  }

  lemma OthersAreAttestations(blobs: Blobs, es: seq<Json>, a: nat, b: nat, k: nat)
    requires EntriesOk(blobs, es) && a < |es| && b < |es| && k < |es| && k != a && k != b
    requires IsImage(es[a]) && PlatformName(es[a]) == AMD64
    requires IsImage(es[b]) && PlatformName(es[b]) == ARM64
    ensures IsAttestation(es[k])
  {
    hide IsAttestation, PlatformName, EntryShape, Apart;
    AnyTwoApart(blobs, es, a, k);
    AnyTwoApart(blobs, es, b, k);
    assert EntryOk(blobs, es[k]);
  }

  /** Two images and two attestations: the images' digests differ because two distinct references
      name nothing else. */
  lemma FindRoles(blobs: Blobs, es: seq<Json>) returns (a: nat, b: nat, c: nat, d: nat)
    requires EntriesOk(blobs, es) && Paired(es) && |es| == 4
    ensures Roles(es, a, b, c, d)
  {
    hide IsImage, IsAttestation, PlatformName, ReferenceOf, DigestOf, EntriesOk, ReferencesResolve, ImagesAttested, Cover;
    a := ImageFor(es, AMD64);
    b := ImageFor(es, ARM64);
    PlatformsDiffer();
    c := AttestationFor(es, a);
    NotBoth(es[a]);
    NotBoth(es[b]);
    d := FourthRole(blobs, es, a, b, c);
  }

  lemma ImageFor(es: seq<Json>, platform: string) returns (i: nat)
    requires Cover(es, PLATFORMS) && platform in PLATFORMS
    ensures i < |es| && IsImage(es[i]) && PlatformName(es[i]) == platform
  {
    hide IsImage, PlatformName;
    i :| 0 <= i < |es| && IsImage(es[i]) && PlatformName(es[i]) == platform;
  }

  lemma AttestationFor(es: seq<Json>, i: nat) returns (j: nat)
    requires ImagesAttested(es) && i < |es| && IsImage(es[i])
    ensures j < |es| && IsAttestation(es[j]) && ReferenceOf(es[j]) == DigestOf(es[i])
  {
    hide IsImage, IsAttestation, ReferenceOf, DigestOf;
    j :| 0 <= j < |es| && IsAttestation(es[j]) && ReferenceOf(es[j]) == DigestOf(es[i]);
  }

  lemma ImageReferred(es: seq<Json>, j: nat) returns (i: nat)
    requires ReferencesResolve(es) && j < |es| && IsAttestation(es[j])
    ensures i < |es| && IsImage(es[i]) && DigestOf(es[i]) == ReferenceOf(es[j])
  {
    hide IsImage, IsAttestation, ReferenceOf, DigestOf;
    i :| 0 <= i < |es| && IsImage(es[i]) && DigestOf(es[i]) == ReferenceOf(es[j]);
  }

  lemma FourthRole(blobs: Blobs, es: seq<Json>, a: nat, b: nat, c: nat) returns (d: nat)
    requires EntriesOk(blobs, es) && ReferencesResolve(es) && |es| == 4 && a < 4 && b < 4 && c < 4
    requires a != b && a != c && b != c
    requires IsImage(es[a]) && PlatformName(es[a]) == AMD64 && IsImage(es[b]) && PlatformName(es[b]) == ARM64
    requires IsAttestation(es[c]) && ReferenceOf(es[c]) == DigestOf(es[a])
    ensures Roles(es, a, b, c, d)
  {
    hide IsImage, IsAttestation, PlatformName, ReferenceOf, DigestOf, EntriesOk, ReferencesResolve;
    d := 6 - a - b - c;
    assert d < 4 && d != a && d != b && d != c;
    OthersAreAttestations(blobs, es, a, b, d);
    AnyTwoApart(blobs, es, c, d);
    var i := ImageReferred(es, d);
    NotBoth(es[c]);
    NotBoth(es[d]);
    assert i == a || i == b;
  }

  ghost predicate FourDistinct(es: seq<Json>) {
    |es| == 4 && forall i, j :: 0 <= i < j < 4 ==> DigestOf(es[i]) != DigestOf(es[j])
  }

  /** The four manifests of an accepted release are four different blobs. */
  lemma FourDistinctManifests(blobs: Blobs, rootIndex: Json, expected: string)
    requires Acceptable(blobs, rootIndex, expected)
    ensures FourDistinct(Entries(blobs, expected))
  {
    hide IsImage, IsAttestation, PlatformName, ReferenceOf, DigestOf, EntriesOk, Paired, NothingLeftOver, RootEntryOk,
      ImageOk, AttestationOk, IndexOk, IsDigest, JsonBlob, ManifestsOk;
    var es := Entries(blobs, expected);
    var a, b, c, d := FindRoles(blobs, es);
    AnyTwoApart(blobs, es, c, d);
    ImageNotAttestation(blobs, es, a, c);
    ImageNotAttestation(blobs, es, a, d);
    ImageNotAttestation(blobs, es, b, c);
    ImageNotAttestation(blobs, es, b, d);
    forall i, j | 0 <= i < j < 4
      ensures DigestOf(es[i]) != DigestOf(es[j])
    {
      assert i == a || i == b || i == c || i == d;
      assert j == a || j == b || j == c || j == d;
    }
  }

  lemma ImageNotAttestation(blobs: Blobs, es: seq<Json>, i: nat, j: nat)
    requires ManifestsOk(blobs, es) && i < |es| && j < |es| && IsImage(es[i]) && IsAttestation(es[j])
    ensures DigestOf(es[i]) != DigestOf(es[j])
  {
    hide IsImage, IsAttestation, PlatformName, ReferenceOf, DigestOf, ImageOk, AttestationOk;
    NotBoth(es[j]);
    assert ManifestOk(blobs, es[i]) && ManifestOk(blobs, es[j]);
    NeverBothManifests(blobs, DigestOf(es[i]), PlatformName(es[i]), ReferenceOf(es[j]));
  }

  /** The image that an attestation entry's own manifest names as its subject. */
  function SubjectOf(blobs: Blobs, v: Json): string {
    DigestOf(Field(Document(blobs, DigestOf(v)), "subject"))
  }

  /** Each image has exactly one attestation, each attestation exactly one image, and the subject
      inside the attestation's manifest is that image. */
  ghost predicate OneToOne(blobs: Blobs, es: seq<Json>) {
    exists a: nat, b: nat, c: nat, d: nat ::
      && Roles(es, a, b, c, d) && DigestOf(es[a]) != DigestOf(es[b])
      && SubjectOf(blobs, es[c]) == DigestOf(es[a]) && SubjectOf(blobs, es[d]) == DigestOf(es[b])
  }

  lemma ImagesMatchAttestations(blobs: Blobs, rootIndex: Json, expected: string)
    requires Acceptable(blobs, rootIndex, expected)
    ensures OneToOne(blobs, Entries(blobs, expected))
  {
    hide IsImage, IsAttestation, PlatformName, ReferenceOf, DigestOf, EntriesOk, Paired, NothingLeftOver, RootEntryOk,
      ImageOk, AttestationOk, IndexOk, IsDigest, JsonBlob, ManifestsOk, SubjectOf;
    var es := Entries(blobs, expected);
    var a, b, c, d := FindRoles(blobs, es);
    AnyTwoApart(blobs, es, c, d);
    SubjectIsReference(blobs, es, c);
    SubjectIsReference(blobs, es, d);
  }

  lemma SubjectIsReference(blobs: Blobs, es: seq<Json>, k: nat)
    requires ManifestsOk(blobs, es) && k < |es| && IsAttestation(es[k])
    ensures SubjectOf(blobs, es[k]) == ReferenceOf(es[k])
  {
    hide IsImage, IsAttestation, ReferenceOf, LayersOk, AttestationConfigOk, ManifestShape, DescriptorOk;
    NotBoth(es[k]);
    assert ManifestOk(blobs, es[k]);
  }

  // ---------- What the manifests say ----------

  lemma {:induction false} SplitSlashAt(a: string, b: string)
    requires forall i :: 0 <= i < |a| ==> a[i] != '/'
    ensures SplitSlash(a + "/" + b) == (a, b)
  {
    var s := a + "/" + b;
    if a == "" {
      assert s[1..] == b;
    } else {
      assert s[1..] == a[1..] + "/" + b;
      SplitSlashAt(a[1..], b);
      assert [a[0]] + a[1..] == a;
    }
  }

  /** What an image's configuration document says it runs on. */
  function ConfigOf(blobs: Blobs, v: Json): Json {
    Document(blobs, DigestOf(Field(Document(blobs, DigestOf(v)), "config")))
  }

  /** The image listed for a platform is configured for that system and that architecture. */
  lemma ImagesRunOnTheirPlatform(blobs: Blobs, es: seq<Json>, k: nat)
    requires ManifestsOk(blobs, es) && k < |es| && IsImage(es[k])
    ensures Is(ConfigOf(blobs, es[k]), "os", "linux")
    ensures PlatformName(es[k]) == AMD64 ==> Is(ConfigOf(blobs, es[k]), "architecture", "amd64")
    ensures PlatformName(es[k]) == ARM64 ==> Is(ConfigOf(blobs, es[k]), "architecture", "arm64")
  {
    hide PlatformName, LayersOk, ManifestShape, DescriptorOk, DigestOf, SplitSlash;
    assert ManifestOk(blobs, es[k]);
    assert AMD64 == "linux" + "/" + "amd64" && ARM64 == "linux" + "/" + "arm64";
    SplitSlashAt("linux", "amd64");
    SplitSlashAt("linux", "arm64");
  }

  /** The layers of an attestation entry's manifest. */
  function StatementsOf(blobs: Blobs, v: Json): seq<Json> {
    LayersOf(Document(blobs, DigestOf(v)))
  }

  /** An attestation consists of two statements, one of each configured type, and every subject
      of both is the image the entry refers to. */
  lemma AttestationsSpeakOfTheirImage(blobs: Blobs, es: seq<Json>, k: nat)
    requires ManifestsOk(blobs, es) && k < |es| && IsAttestation(es[k])
    ensures var layers := StatementsOf(blobs, es[k]);
            && |layers| == 2
            && PredicateOf(layers[0]) != PredicateOf(layers[1])
            && forall i, j :: 0 <= i < 2 && 0 <= j < |SubjectsOf(blobs, layers[i])| ==>
                 StatementSubjectOk(SubjectsOf(blobs, layers[i])[j], ReferenceOf(es[k]))
  {
    hide IsImage, IsAttestation, ReferenceOf, DigestOf, ManifestShape, DescriptorOk, AttestationConfigOk, SubjectOk,
      StatementSubjectOk, PredicateOf, LayersOf;
    NotBoth(es[k]);
    assert ManifestOk(blobs, es[k]);
    var layers := StatementsOf(blobs, es[k]);
    assert LayersOk(blobs, layers, Some(ReferenceOf(es[k])));
    forall i | 0 <= i < |layers|
      ensures PredicateOf(layers[i]).Str? && PredicateOf(layers[i]).s in ATTESTATION_PREDICATES
      ensures forall j :: 0 <= j < |SubjectsOf(blobs, layers[i])| ==>
                StatementSubjectOk(SubjectsOf(blobs, layers[i])[j], ReferenceOf(es[k]))
    {
      assert LayerOk(blobs, layers[i], Some(ReferenceOf(es[k])));
      StatementSubjects(blobs, layers[i], ReferenceOf(es[k]));
    }
    TwoStatements(layers);
  }

  /** The subjects of the statement that a layer holds. */
  function SubjectsOf(blobs: Blobs, layer: Json): seq<Json> {
    var subjects := Field(Document(blobs, DigestOf(layer)), "subject");
    if subjects.List? then subjects.items else []
  }

  lemma StatementSubjects(blobs: Blobs, layer: Json, image: string)
    requires AttestationLayerOk(blobs, layer, image)
    ensures PredicateOf(layer).Str? && PredicateOf(layer).s in ATTESTATION_PREDICATES
    ensures forall j :: 0 <= j < |SubjectsOf(blobs, layer)| ==>
              StatementSubjectOk(SubjectsOf(blobs, layer)[j], image)
  {
    hide DescriptorOk, PlainLayer, StatementSubjectOk, JsonBlob, DigestOf, MediaOf, PredicateOf;
  }

  lemma TwoStatements(layers: seq<Json>)
    requires PredicatesComplete(layers)
    requires forall i :: 0 <= i < |layers| ==>
               PredicateOf(layers[i]).Str? && PredicateOf(layers[i]).s in ATTESTATION_PREDICATES
    ensures |layers| == 2
  {
    hide PredicateOf;
    var spdx, slsa := "https://spdx.dev/Document", "https://slsa.dev/provenance/v1";
    assert |spdx| == 25 && |slsa| == 30;
    var i :| 0 <= i < |layers| && PredicateOf(layers[i]) == Str(spdx);
    var j :| 0 <= j < |layers| && PredicateOf(layers[j]) == Str(slsa);
    if |layers| > 2 {
      OneOfTwo(layers, i, j, 0);
      OneOfTwo(layers, i, j, 1);
      OneOfTwo(layers, i, j, 2);
    }
  }

  lemma OneOfTwo(layers: seq<Json>, i: nat, j: nat, k: nat)
    requires PredicatesComplete(layers) && i < |layers| && j < |layers| && k < |layers|
    requires PredicateOf(layers[i]) == Str("https://spdx.dev/Document")
    requires PredicateOf(layers[j]) == Str("https://slsa.dev/provenance/v1")
    requires PredicateOf(layers[k]).Str? && PredicateOf(layers[k]).s in ATTESTATION_PREDICATES
    ensures k == i || k == j
  {
    hide PredicateOf;
  }

  // ---------- Reachability ----------

  /** A blob as some descriptor names it. */
  datatype Node = Node(media: string, digest: string)

  function NodeOf(v: Json): Node {
    Node(MediaOf(v), DigestOf(v))
  }

  function Nodes(vs: seq<Json>): set<Node> {
    set v | v in vs :: NodeOf(v)
  }

  /** Indexes lead to their manifests, manifests to what they hold, everything else to nothing. */
  function Links(blobs: Blobs, n: Node): set<Node> {
    if n.media == OCI_INDEX then Nodes(ManifestsOf(Document(blobs, n.digest)))
    else if n.media == OCI_MANIFEST then Nodes(Held(Document(blobs, n.digest)))
    else {}
  }

  ghost predicate Path(blobs: Blobs, rootIndex: Json, ns: seq<Node>) {
    && ns != [] && ns[0] in Nodes(ManifestsOf(rootIndex))
    && forall i :: 0 < i < |ns| ==> ns[i] in Links(blobs, ns[i - 1])
  }

  ghost predicate Reachable(blobs: Blobs, rootIndex: Json, digest: string) {
    exists ns: seq<Node> :: Path(blobs, rootIndex, ns) && ns[|ns| - 1].digest == digest
  }

  /** The nodes of an accepted release. */
  ghost predicate InRelease(blobs: Blobs, expected: string, n: Node) {
    var es := Entries(blobs, expected);
    || n == Node(OCI_INDEX, expected)
    || n in Nodes(es)
    || exists v :: v in es && n in Nodes(Held(Document(blobs, DigestOf(v))))
  }

  lemma MediaTypesDiffer()
    ensures OCI_INDEX != OCI_MANIFEST
    ensures forall n :: Leaf(n) ==> n.media != OCI_INDEX && n.media != OCI_MANIFEST
  {
    assert |OCI_INDEX| == 39 && |OCI_MANIFEST| == 42 && |OCI_CONFIG| == 40;
    assert |OCI_EMPTY| == 33 && |OCI_LAYER_GZIP| == 43 && |IN_TOTO| == 28;
  }

  predicate Leaf(n: Node) {
    n.media in {OCI_CONFIG, OCI_EMPTY, OCI_LAYER_GZIP, IN_TOTO}
  }

  /** What an accepted manifest holds: blobs of the store that lead nowhere, and for an attestation
      also the image it attests. */
  lemma HeldNodes(blobs: Blobs, es: seq<Json>, v: Json, w: Json)
    requires ManifestsOk(blobs, es) && ReferencesResolve(es) && v in es && (IsImage(v) || IsAttestation(v))
    requires w in Held(Document(blobs, DigestOf(v)))
    ensures DigestOf(w) in blobs
    ensures Leaf(NodeOf(w)) || exists u :: u in es && IsImage(u) && NodeOf(w) == Node(OCI_MANIFEST, DigestOf(u))
  {
    hide IsImage, IsAttestation, PlatformName, ReferenceOf, DigestOf, ImageOk, AttestationOk, NodeOf, Leaf, Held,
      Document, ReferencesResolve;
    var i :| 0 <= i < |es| && es[i] == v;
    assert ManifestOk(blobs, es[i]);
    if IsImage(v) {
      ImageHeld(blobs, DigestOf(v), PlatformName(v), w);
    } else {
      AttestationHeld(blobs, DigestOf(v), ReferenceOf(v), w);
      if !Leaf(NodeOf(w)) {
        var j := ImageReferred(es, i);
        assert es[j] in es;
      }
    }
  }

  lemma DescriptorInStore(blobs: Blobs, v: Json)
    requires DescriptorOk(blobs, v)
    ensures DigestOf(v) in blobs
  {
  }

  lemma ImageHeld(blobs: Blobs, digest: string, platform: string, w: Json)
    requires ImageOk(blobs, digest, platform) && w in Held(Document(blobs, digest))
    ensures DigestOf(w) in blobs && Leaf(NodeOf(w))
  {
    hide DigestOf, MediaOf, DescriptorOk, SplitSlash, JsonBlob, LayersOf, PlainLayer;
    var m := JsonBlob(blobs, digest).value;
    assert "subject" !in IMAGE_KEYS by {
      assert |"subject"| == 7 && |"schemaVersion"| == 13 && |"mediaType"| == 9 && |"config"| == 6 && |"layers"| == 6;
    }
    assert !Has(m, "subject");
    if w == Field(m, "config") {
      DescriptorInStore(blobs, w);
    } else {
      var k :| 0 <= k < |LayersOf(m)| && LayersOf(m)[k] == w;
      assert LayerOk(blobs, LayersOf(m)[k], None);
      DescriptorInStore(blobs, w);
    }
  }

  lemma AttestationHeld(blobs: Blobs, digest: string, image: string, w: Json)
    requires AttestationOk(blobs, digest, image) && w in Held(Document(blobs, digest))
    ensures DigestOf(w) in blobs && (Leaf(NodeOf(w)) || NodeOf(w) == Node(OCI_MANIFEST, image))
  {
    hide DigestOf, MediaOf, DescriptorOk, JsonBlob, LayersOf, PlainLayer, PredicatesComplete, StatementOk, ManifestShape,
      PredicateOf;
    var m := JsonBlob(blobs, digest).value;
    if w == Field(m, "config") || w == Field(m, "subject") {
      DescriptorInStore(blobs, w);
    } else {
      var k :| 0 <= k < |LayersOf(m)| && LayersOf(m)[k] == w;
      assert LayerOk(blobs, LayersOf(m)[k], Some(image));
      DescriptorInStore(blobs, w);
    }
  }

  lemma EntryNode(blobs: Blobs, es: seq<Json>, v: Json)
    requires EntriesOk(blobs, es) && v in es
    ensures DigestOf(v) in blobs && MediaOf(v) == OCI_MANIFEST && (IsImage(v) || IsAttestation(v))
  {
    hide IsImage, IsAttestation, PlatformOf, Apart, DescriptorShape;
    var i :| 0 <= i < |es| && es[i] == v;
    assert EntryOk(blobs, es[i]);
  }

  lemma HeldLinks(blobs: Blobs, es: seq<Json>, v: Json, w: Json, m: Node)
    requires EntriesOk(blobs, es) && ManifestsOk(blobs, es) && ReferencesResolve(es) && v in es
    requires w in Held(Document(blobs, DigestOf(v))) && m in Links(blobs, NodeOf(w))
    ensures exists u :: u in es && m in Nodes(Held(Document(blobs, DigestOf(u))))
  {
    hide IsImage, IsAttestation, DigestOf, MediaOf, EntriesOk, ReferencesResolve, ManifestsOk, Document, Held, ManifestsOf,
      Nodes;
    EntryNode(blobs, es, v);
    HeldNodes(blobs, es, v, w);
    MediaTypesDiffer();
    var u :| u in es && NodeOf(w) == Node(OCI_MANIFEST, DigestOf(u));
  }

  /** The nodes of an accepted release are closed under links. */
  lemma ReleaseClosed(blobs: Blobs, rootIndex: Json, expected: string, n: Node, m: Node)
    requires Acceptable(blobs, rootIndex, expected) && InRelease(blobs, expected, n) && m in Links(blobs, n)
    ensures InRelease(blobs, expected, m)
  {
    hide IsImage, IsAttestation, DigestOf, MediaOf, EntriesOk, Cover, ReferencesResolve, ImagesAttested, ManifestsOk,
      NothingLeftOver, RootEntryOk, IndexOk, Document, Held, IsDigest, ManifestsOf;
    var es := Entries(blobs, expected);
    MediaTypesDiffer();
    if n == Node(OCI_INDEX, expected) {
      assert m in Nodes(es);
    } else if n in Nodes(es) {
      var v :| v in es && n == NodeOf(v);
      EntryNode(blobs, es, v);
    } else {
      var v :| v in es && n in Nodes(Held(Document(blobs, DigestOf(v))));
      var w :| w in Held(Document(blobs, DigestOf(v))) && n == NodeOf(w);
      HeldLinks(blobs, es, v, w, m);
    }
  }

  lemma ReleaseInStore(blobs: Blobs, rootIndex: Json, expected: string, n: Node)
    requires Acceptable(blobs, rootIndex, expected) && InRelease(blobs, expected, n)
    ensures n.digest in blobs
  {
    hide IsImage, IsAttestation, DigestOf, MediaOf, EntriesOk, Cover, ReferencesResolve, ImagesAttested, ManifestsOk,
      NothingLeftOver, IndexOk, Document, Held, IsDigest, ManifestsOf, DescriptorOk;
    var es := Entries(blobs, expected);
    if n == Node(OCI_INDEX, expected) {
      DescriptorInStore(blobs, ManifestsOf(rootIndex)[0]);
    } else if n in Nodes(es) {
      var v :| v in es && n == NodeOf(v);
      EntryNode(blobs, es, v);
    } else {
      var v :| v in es && n in Nodes(Held(Document(blobs, DigestOf(v))));
      var w :| w in Held(Document(blobs, DigestOf(v))) && n == NodeOf(w);
      EntryNode(blobs, es, v);
      HeldNodes(blobs, es, v, w);
    }
  }

  lemma {:induction false} PathInRelease(blobs: Blobs, rootIndex: Json, expected: string, ns: seq<Node>)
    requires Acceptable(blobs, rootIndex, expected) && Path(blobs, rootIndex, ns)
    ensures InRelease(blobs, expected, ns[|ns| - 1])
    decreases |ns|
  {
    hide Acceptable, InRelease, Links, Nodes;
    var last := |ns| - 1;
    if last == 0 {
      RootInRelease(blobs, rootIndex, expected, ns[0]);
    } else {
      PathInRelease(blobs, rootIndex, expected, ns[..last]);
      ReleaseClosed(blobs, rootIndex, expected, ns[last - 1], ns[last]);
    }
  }

  lemma RootInRelease(blobs: Blobs, rootIndex: Json, expected: string, n: Node)
    requires Acceptable(blobs, rootIndex, expected) && n in Nodes(ManifestsOf(rootIndex))
    ensures n == Node(OCI_INDEX, expected) && InRelease(blobs, expected, n)
  {
    hide EntriesOk, Paired, ManifestsOk, NothingLeftOver, IndexOk, Document, IsDigest, ManifestsOf, DescriptorOk,
      DigestOf, MediaOf;
    var v :| v in ManifestsOf(rootIndex) && n == NodeOf(v);
    assert v == ManifestsOf(rootIndex)[0];
  }

  lemma StepFurther(blobs: Blobs, rootIndex: Json, ns: seq<Node>, v: Json, vs: seq<Json>)
    requires Path(blobs, rootIndex, ns) && v in vs && Links(blobs, ns[|ns| - 1]) == Nodes(vs)
    ensures Path(blobs, rootIndex, ns + [NodeOf(v)])
    ensures Reachable(blobs, rootIndex, DigestOf(v))
  {
    hide Links, DigestOf, MediaOf;
    var longer := ns + [NodeOf(v)];
    forall i | 0 < i < |longer|
      ensures longer[i] in Links(blobs, longer[i - 1])
    {
      assert longer[i - 1] == ns[i - 1];
      assert i < |ns| ==> longer[i] == ns[i];
    }
    assert longer[|longer| - 1].digest == DigestOf(v);
  }

  /** Every blob an accepted release names can be reached. */
  lemma NamedIsReachable(blobs: Blobs, rootIndex: Json, expected: string, digest: string)
    requires Acceptable(blobs, rootIndex, expected) && digest in blobs
    ensures Reachable(blobs, rootIndex, digest)
  {
    hide EntriesOk, Paired, ManifestsOk, IndexOk, Document, IsDigest, ManifestsOf, DescriptorOk, DigestOf, MediaOf, Held,
      IsImage, IsAttestation, Path, Reachable;
    MediaTypesDiffer();
    var es := Entries(blobs, expected);
    var root := Node(OCI_INDEX, expected);
    RootIsPath(blobs, rootIndex, expected);
    if digest != expected {
      if digest in Digests(es) {
        var v :| v in es && DigestOf(v) == digest;
        StepFurther(blobs, rootIndex, [root], v, es);
      } else {
        var v :| v in es && digest in HeldBy(blobs, DigestOf(v));
        var w :| w in Held(Document(blobs, DigestOf(v))) && DigestOf(w) == digest;
        StepFurther(blobs, rootIndex, [root], v, es);
        EntryNode(blobs, es, v);
        StepFurther(blobs, rootIndex, [root] + [NodeOf(v)], w, Held(Document(blobs, DigestOf(v))));
      }
    }
  }

  lemma RootIsPath(blobs: Blobs, rootIndex: Json, expected: string)
    requires Acceptable(blobs, rootIndex, expected)
    ensures Path(blobs, rootIndex, [Node(OCI_INDEX, expected)]) && Reachable(blobs, rootIndex, expected)
  {
    hide EntriesOk, Paired, ManifestsOk, NothingLeftOver, IndexOk, Document, IsDigest, ManifestsOf, DescriptorOk,
      DigestOf, MediaOf, Links;
    var ns := [Node(OCI_INDEX, expected)];
    assert ns[0] == NodeOf(ManifestsOf(rootIndex)[0]);
    assert Path(blobs, rootIndex, ns);
    assert ns[|ns| - 1].digest == expected;
  }

  /** The store of an accepted layout is exactly what its root index reaches. */
  lemma StoreIsReachable(blobs: Blobs, rootIndex: Json, expected: string, digest: string)
    requires Acceptable(blobs, rootIndex, expected)
    ensures digest in blobs <==> Reachable(blobs, rootIndex, digest)
  {
    hide Acceptable, InRelease, Links, Nodes;
    if digest in blobs {
      NamedIsReachable(blobs, rootIndex, expected, digest);
    }
    if Reachable(blobs, rootIndex, digest) {
      var ns: seq<Node> :| Path(blobs, rootIndex, ns) && ns[|ns| - 1].digest == digest;
      PathInRelease(blobs, rootIndex, expected, ns);
      ReleaseInStore(blobs, rootIndex, expected, ns[|ns| - 1]);
    }
  }
}
