/** The documents of a release, written out. A publication names every blob of a release; the layouts
    that the validator accepts are exactly those that hold the documents of some publication and
    nothing else (scripts/validate_release_oci.py; Image Index, Image Manifest and Descriptor of the
    OCI Image Format Specification). */
module OciDocuments {
  import opened Common
  import opened OciLayout
  import opened OciValidation
  import OciClosure

  // ---------- Descriptors ----------

  predicate Sha256(s: string) {
    |s| == 71 && s[..7] == "sha256:" && forall i :: 7 <= i < 71 ==> '0' <= s[i] <= '9' || 'a' <= s[i] <= 'f'
  }

  function SizeOf(blobs: Blobs, digest: string): int {
    if digest in blobs then blobs[digest].size else 0
  }

  /** The fields every descriptor of a stored blob has. */
  function Plain(blobs: Blobs, media: string, digest: string): map<string, Json> {
    map["mediaType" := Str(media), "digest" := Str(digest), "size" := Num(SizeOf(blobs, digest))]
  }

  ghost predicate Stored(blobs: Blobs, digest: string) {
    Sha256(digest) && digest in blobs
  }

  /** Free annotations: at most 128 short strings. */
  predicate Notes(v: Json) {
    && v.Obj? && |v.fields| <= 128
    && forall k :: k in v.fields ==> 1 <= |k| <= 256 && v.fields[k].Str? && 1 <= |v.fields[k].s| <= 4096
  }

  predicate Extras(extras: map<string, Json>) {
    && extras.Keys <= {"annotations", "artifactType", "platform", "data"}
    && ("annotations" in extras ==> Notes(extras["annotations"]))
    && ("artifactType" in extras ==> extras["artifactType"].Str? && 1 <= |extras["artifactType"].s| <= 256)
    && ("data" in extras ==> extras["data"].Str? && 1 <= |extras["data"].s| <= 1024)
  }

  lemma DescriptorKeys()
    ensures "mediaType" != "digest" && "mediaType" != "size" && "digest" != "size"
    ensures {"mediaType", "digest", "size"} !! {"annotations", "artifactType", "platform", "data"}
  {
    assert |"mediaType"| == 9 && |"digest"| == 6 && |"size"| == 4;
    assert |"annotations"| == 11 && |"artifactType"| == 12 && |"platform"| == 8 && |"data"| == 4;
    assert "size"[0] == 's' && "data"[0] == 'd';
  }

  lemma NotesIff(v: Json)
    ensures Notes(v) <==> AnnotationsOk(v)
  {
  }

  lemma Sha256Iff(s: string)
    ensures Sha256(s) <==> IsDigest(s)
  {
  }

  /** What an accepted descriptor has beside media type, digest and size. */
  function ExtrasOf(v: Json): map<string, Json> {
    if v.Obj? then v.fields - {"mediaType", "digest", "size"} else map[]
  }

  /** An accepted descriptor is the plain one of a stored blob with some extras. */
  lemma DescriptorOut(blobs: Blobs, v: Json)
    requires DescriptorOk(blobs, v)
    ensures Stored(blobs, DigestOf(v)) && 1 <= |MediaOf(v)| <= 256 && Extras(ExtrasOf(v))
    ensures v == Obj(Plain(blobs, MediaOf(v), DigestOf(v)) + ExtrasOf(v))
  {
    hide Notes, AnnotationsOk, Sha256, IsDigest;
    DescriptorKeys();
    Sha256Iff(DigestOf(v));
    NotesIff(Field(v, "annotations"));
    var plain, extras := Plain(blobs, MediaOf(v), DigestOf(v)), ExtrasOf(v);
    assert v.fields == plain + extras;
  }

  /** And every such descriptor is accepted. */
  lemma DescriptorIn(blobs: Blobs, media: string, digest: string, extras: map<string, Json>)
    requires 1 <= |media| <= 256 && Stored(blobs, digest) && Extras(extras)
    ensures var v := Obj(Plain(blobs, media, digest) + extras);
            && DescriptorOk(blobs, v) && MediaOf(v) == media && DigestOf(v) == digest && ExtrasOf(v) == extras
            && (forall k :: k !in {"mediaType", "digest", "size"} ==> (Has(v, k) <==> k in extras))
            && (forall k :: k in extras ==> Field(v, k) == extras[k])
            && v.fields.Keys == {"mediaType", "digest", "size"} + extras.Keys
  {
    hide Notes, AnnotationsOk, Sha256, IsDigest;
    DescriptorKeys();
    Sha256Iff(digest);
    var v := Obj(Plain(blobs, media, digest) + extras);
    NotesIff(Field(v, "annotations"));
    assert Field(v, "mediaType") == Str(media) && Field(v, "digest") == Str(digest);
    assert ExtrasOf(v) == extras;
  }

  lemma PlainOut(blobs: Blobs, v: Json)
    requires DescriptorOk(blobs, v) && HasKeys(v, DESCRIPTOR_FIELDS)
    ensures Stored(blobs, DigestOf(v)) && v == Obj(Plain(blobs, MediaOf(v), DigestOf(v)))
  {
    hide DescriptorOk, Sha256;
    DescriptorOut(blobs, v);
    assert ExtrasOf(v) == map[];
    assert Plain(blobs, MediaOf(v), DigestOf(v)) + map[] == Plain(blobs, MediaOf(v), DigestOf(v));
  }

  lemma PlainIn(blobs: Blobs, media: string, digest: string)
    requires 1 <= |media| <= 256 && Stored(blobs, digest)
    ensures var v := Obj(Plain(blobs, media, digest));
            && DescriptorOk(blobs, v) && MediaOf(v) == media && DigestOf(v) == digest
            && HasKeys(v, DESCRIPTOR_FIELDS) && PlainLayer(v) && !Has(v, "annotations")
            && Field(v, "size") == Num(SizeOf(blobs, digest))
  {
    hide DescriptorOk, Sha256, DigestOf, MediaOf;
    DescriptorIn(blobs, media, digest, map[]);
    assert Plain(blobs, media, digest) + map[] == Plain(blobs, media, digest);
    DescriptorKeys();
  }

  function PlainList(blobs: Blobs, media: string, digests: seq<string>): seq<Json> {
    seq(|digests|, i requires 0 <= i < |digests| => Obj(Plain(blobs, media, digests[i])))
  }

  /** The blob is small enough to be read and holds just this document. */
  ghost predicate Holds(blobs: Blobs, digest: string, doc: Json) {
    digest in blobs && blobs[digest].size <= 67108864 && blobs[digest].json == Some(doc) && doc.Obj?
  }

  lemma HoldsIff(blobs: Blobs, digest: string, doc: Json)
    ensures Holds(blobs, digest, doc) <==> JsonBlob(blobs, digest) == Some(doc)
  {
  }

  // ---------- Images ----------

  /** Digests of an image's manifest, configuration and layers. */
  datatype Image = Image(manifest: string, config: string, layers: seq<string>)

  function ImageManifest(blobs: Blobs, im: Image): Json {
    Obj(map["schemaVersion" := Num(2),
            "mediaType" := Str("application/vnd.oci.image.manifest.v1+json"),
            "config" := Obj(Plain(blobs, "application/vnd.oci.image.config.v1+json", im.config)),
            "layers" := List(PlainList(blobs, "application/vnd.oci.image.layer.v1.tar+gzip", im.layers))])
  }

  /** The configuration document names the system and the architecture; it may say more. */
  ghost predicate Configures(blobs: Blobs, digest: string, arch: string) {
    && digest in blobs && blobs[digest].json.Some? && Holds(blobs, digest, blobs[digest].json.value)
    && var fields := blobs[digest].json.value.fields;
       && "os" in fields && fields["os"] == Str("linux")
       && "architecture" in fields && fields["architecture"] == Str(arch)
  }

  ghost predicate ImagePublished(blobs: Blobs, im: Image, arch: string) {
    && Holds(blobs, im.manifest, ImageManifest(blobs, im))
    && Stored(blobs, im.config) && Configures(blobs, im.config, arch)
    && im.layers != [] && forall i :: 0 <= i < |im.layers| ==> Stored(blobs, im.layers[i])
  }

  lemma ManifestKeys()
    ensures forall i, j :: 0 <= i < j < 6 ==>
      ["schemaVersion", "mediaType", "config", "layers", "artifactType", "subject"][i]
      != ["schemaVersion", "mediaType", "config", "layers", "artifactType", "subject"][j]
  {
    var keys := ["schemaVersion", "mediaType", "config", "layers", "artifactType", "subject"];
    var lengths := [13, 9, 6, 6, 12, 7];
    assert forall i :: 0 <= i < 6 ==> |keys[i]| == lengths[i];
    assert keys[2][0] == 'c' && keys[3][0] == 'l';
  }

  lemma ConfiguresIff(blobs: Blobs, digest: string, arch: string)
    ensures Configures(blobs, digest, arch) <==>
      var doc := JsonBlob(blobs, digest); doc.Some? && Is(doc.value, "os", "linux") && Is(doc.value, "architecture", arch)
  {
    if digest in blobs && blobs[digest].json.Some? {
      HoldsIff(blobs, digest, blobs[digest].json.value);
    }
  }

  lemma SplitsTo(arch: string)
    ensures SplitSlash("linux" + "/" + arch) == ("linux", arch)
  {
    hide SplitSlash;
    OciClosure.SplitSlashAt("linux", arch);
  }

  lemma ImageOut(blobs: Blobs, digest: string, arch: string) returns (im: Image)
    requires ImageOk(blobs, digest, "linux" + "/" + arch)
    ensures im.manifest == digest && ImagePublished(blobs, im, arch)
  {
    hide Plain, DescriptorOk, JsonBlob, SplitSlash, Sha256, Configures;
    var m := JsonBlob(blobs, digest).value;
    var config, layers := Field(m, "config"), LayersOf(m);
    SplitsTo(arch);
    PlainOut(blobs, config);
    ConfiguresIff(blobs, DigestOf(config), arch);
    im := Image(digest, DigestOf(config), seq(|layers|, i requires 0 <= i < |layers| => DigestOf(layers[i])));
    forall i | 0 <= i < |layers|
      ensures Stored(blobs, DigestOf(layers[i]))
      ensures layers[i] == Obj(Plain(blobs, "application/vnd.oci.image.layer.v1.tar+gzip", DigestOf(layers[i])))
    {
      assert LayerOk(blobs, layers[i], None);
      ImageLayerOut(blobs, layers[i]);
    }
    assert layers == PlainList(blobs, "application/vnd.oci.image.layer.v1.tar+gzip", im.layers);
    ManifestKeys();
    HoldsIff(blobs, digest, m);
    assert m == ImageManifest(blobs, im);
  }

  lemma ImageLayerOut(blobs: Blobs, v: Json)
    requires ImageLayerOk(blobs, v)
    ensures Stored(blobs, DigestOf(v))
    ensures v == Obj(Plain(blobs, "application/vnd.oci.image.layer.v1.tar+gzip", DigestOf(v)))
  {
    hide DescriptorOk, Plain, Sha256;
    DescriptorOut(blobs, v);
    DescriptorHasKeys(blobs, v);
    PlainOut(blobs, v);
  }

  lemma DescriptorHasKeys(blobs: Blobs, v: Json)
    requires DescriptorOk(blobs, v) && PlainLayer(v) && !Has(v, "annotations")
    ensures HasKeys(v, DESCRIPTOR_FIELDS)
  {
    hide AnnotationsOk, IsDigest;
  }

  lemma ImageFields(blobs: Blobs, im: Image)
    ensures var m := ImageManifest(blobs, im);
            && HasKeys(m, IMAGE_KEYS) && Field(m, "schemaVersion") == Num(2) && Is(m, "mediaType", OCI_MANIFEST)
            && Field(m, "config") == Obj(Plain(blobs, OCI_CONFIG, im.config))
            && Field(m, "layers") == List(PlainList(blobs, OCI_LAYER_GZIP, im.layers))
            && !Has(m, "subject")
  {
    hide Plain, PlainList;
    ManifestKeys();
    var keys := ["schemaVersion", "mediaType", "config", "layers", "artifactType", "subject"];
    assert keys[0] == "schemaVersion" && keys[1] == "mediaType" && keys[2] == "config" && keys[3] == "layers" && keys[5] == "subject";
  }

  function Listed(digests: seq<string>): set<string> {
    set d | d in digests
  }

  lemma ImageIn(blobs: Blobs, im: Image, arch: string)
    requires ImagePublished(blobs, im, arch)
    ensures ImageOk(blobs, im.manifest, "linux" + "/" + arch)
    ensures HeldBy(blobs, im.manifest) == {im.config} + Listed(im.layers)
  {
    hide Plain, DescriptorOk, JsonBlob, SplitSlash, Sha256, Configures, Holds, ImageManifest, DigestOf, MediaOf, Field;
    var m, layers := ImageManifest(blobs, im), PlainList(blobs, OCI_LAYER_GZIP, im.layers);
    HoldsIff(blobs, im.manifest, m);
    ImageFields(blobs, im);
    SplitsTo(arch);
    MediaLengths();
    PlainIn(blobs, OCI_CONFIG, im.config);
    ConfiguresIff(blobs, im.config, arch);
    forall i | 0 <= i < |layers|
      ensures LayerOk(blobs, layers[i], None) && DigestOf(layers[i]) == im.layers[i]
    {
      PlainIn(blobs, OCI_LAYER_GZIP, im.layers[i]);
    }
    ImageHolds(m);
    PlainListDigests(layers, im.layers);
  }

  lemma MediaLengths()
    ensures 1 <= |OCI_INDEX| <= 256 && 1 <= |OCI_MANIFEST| <= 256 && 1 <= |OCI_CONFIG| <= 256
    ensures 1 <= |OCI_EMPTY| <= 256 && 1 <= |OCI_LAYER_GZIP| <= 256 && 1 <= |IN_TOTO| <= 256
  {
  }

  lemma PlainListDigests(vs: seq<Json>, digests: seq<string>)
    requires |vs| == |digests| && forall i :: 0 <= i < |vs| ==> DigestOf(vs[i]) == digests[i]
    ensures Digests(vs) == Listed(digests)
  {
    hide DigestOf;
    forall d
      ensures d in Digests(vs) <==> d in Listed(digests)
    {
      if d in Digests(vs) {
        var v :| v in vs && DigestOf(v) == d;
        var i :| 0 <= i < |vs| && vs[i] == v;
        assert digests[i] == d;
      }
      if d in Listed(digests) {
        var i :| 0 <= i < |digests| && digests[i] == d;
        assert vs[i] in vs;
      }
    }
  }

  // ---------- Attestations ----------

  /** A statement's blob, its predicate type, statement version, subject names and predicate. */
  datatype Statement = Statement(
    digest: string, kind: string, version: string, names: seq<string>, body: map<string, Json>)

  /** Digest of an attestation's manifest, and its two statements. */
  datatype Attestation = Attestation(manifest: string, first: Statement, second: Statement)

  /** A digest without its seven-letter prefix. */
  function HexPart(digest: string): string {
    if |digest| >= 7 then digest[7..] else ""
  }

  function SubjectNamed(name: string, image: string): Json {
    Obj(map["name" := Str(name), "digest" := Obj(map["sha256" := Str(HexPart(image))])])
  }

  /** An in-toto statement whose every subject is the image. */
  function StatementDocument(s: Statement, image: string): Json {
    Obj(map["_type" := Str(s.version), "predicateType" := Str(s.kind), "predicate" := Obj(s.body),
            "subject" := List(seq(|s.names|, i requires 0 <= i < |s.names| => SubjectNamed(s.names[i], image)))])
  }

  ghost predicate StatementPublished(blobs: Blobs, s: Statement, image: string) {
    && Stored(blobs, s.digest) && Holds(blobs, s.digest, StatementDocument(s, image))
    && s.version in {"https://in-toto.io/Statement/v0.1", "https://in-toto.io/Statement/v1"}
    && s.names != [] && forall i :: 0 <= i < |s.names| ==> 1 <= |s.names[i]| <= 4096
  }

  lemma StatementKeys()
    ensures forall i, j :: 0 <= i < j < 4 ==>
      ["_type", "predicateType", "predicate", "subject"][i] != ["_type", "predicateType", "predicate", "subject"][j]
    ensures "name" != "digest"
  {
    var keys, lengths := ["_type", "predicateType", "predicate", "subject"], [5, 13, 9, 7];
    assert forall i :: 0 <= i < 4 ==> |keys[i]| == lengths[i];
    assert |"name"| == 4 && |"digest"| == 6;
  }

  lemma SubjectOut(v: Json, image: string)
    requires StatementSubjectOk(v, image) && Sha256(image)
    ensures Field(v, "name").Str? && 1 <= |Field(v, "name").s| <= 4096
    ensures v == SubjectNamed(Field(v, "name").s, image)
  {
    StatementKeys();
    assert WithoutPrefix(image) == HexPart(image);
    var digest := Field(v, "digest");
    assert digest == Obj(map["sha256" := Str(HexPart(image))]);
  }

  lemma SubjectIn(name: string, image: string)
    requires Sha256(image) && 1 <= |name| <= 4096
    ensures StatementSubjectOk(SubjectNamed(name, image), image)
  {
    StatementKeys();
    assert WithoutPrefix(image) == HexPart(image);
  }

  lemma StatementOut(blobs: Blobs, digest: string, kind: string, image: string) returns (s: Statement)
    requires Sha256(image) && Stored(blobs, digest)
    requires var doc := JsonBlob(blobs, digest); doc.Some? && StatementOk(doc.value, kind, image)
    ensures s.digest == digest && s.kind == kind && StatementPublished(blobs, s, image)
  {
    hide Sha256, JsonBlob, StatementSubjectOk, SubjectNamed;
    var doc := JsonBlob(blobs, digest).value;
    var subjects := Field(doc, "subject").items;
    forall i | 0 <= i < |subjects|
      ensures Field(subjects[i], "name").Str? && 1 <= |Field(subjects[i], "name").s| <= 4096
      ensures subjects[i] == SubjectNamed(Field(subjects[i], "name").s, image)
    {
      SubjectOut(subjects[i], image);
    }
    s := Statement(digest, kind, Field(doc, "_type").s,
                   seq(|subjects|, i requires 0 <= i < |subjects| => Field(subjects[i], "name").s), Field(doc, "predicate").fields);
    var built := seq(|s.names|, i requires 0 <= i < |s.names| => SubjectNamed(s.names[i], image));
    assert built == subjects;
    StatementKeys();
    HoldsIff(blobs, digest, doc);
    assert doc == StatementDocument(s, image);
  }

  lemma StatementIn(blobs: Blobs, s: Statement, image: string)
    requires Sha256(image) && StatementPublished(blobs, s, image)
    ensures var doc := JsonBlob(blobs, s.digest); doc.Some? && StatementOk(doc.value, s.kind, image)
  {
    hide Sha256, JsonBlob, StatementSubjectOk, SubjectNamed;
    var doc := StatementDocument(s, image);
    HoldsIff(blobs, s.digest, doc);
    StatementKeys();
    var keys := ["_type", "predicateType", "predicate", "subject"];
    assert keys[0] == "_type" && keys[1] == "predicateType" && keys[2] == "predicate" && keys[3] == "subject";
    var subjects := Field(doc, "subject").items;
    forall i | 0 <= i < |subjects|
      ensures StatementSubjectOk(subjects[i], image)
    {
      SubjectIn(s.names[i], image);
    }
  }

  function StatementLayer(blobs: Blobs, s: Statement): Json {
    Obj(Plain(blobs, "application/vnd.in-toto+json", s.digest)
        + map["annotations" := Obj(map["in-toto.io/predicate-type" := Str(s.kind)])])
  }

  /** The one configuration of every attestation: the two bytes of an empty object. */
  function EmptyConfig(): Json {
    Obj(map["mediaType" := Str("application/vnd.oci.empty.v1+json"),
            "digest" := Str("sha256:44136fa355b3678a1146ad16f7e8649e94fb4fc21fe77e8310c060f61caaff8a"),
            "size" := Num(2), "data" := Str("e30=")])
  }

  function AttestationManifest(blobs: Blobs, at: Attestation, image: string): Json {
    Obj(map["schemaVersion" := Num(2),
            "mediaType" := Str("application/vnd.oci.image.manifest.v1+json"),
            "artifactType" := Str("application/vnd.docker.attestation.manifest.v1+json"),
            "config" := EmptyConfig(),
            "subject" := Obj(Plain(blobs, "application/vnd.oci.image.manifest.v1+json", image)),
            "layers" := List([StatementLayer(blobs, at.first), StatementLayer(blobs, at.second)])])
  }

  ghost predicate EmptyConfigStored(blobs: Blobs) {
    var digest := "sha256:44136fa355b3678a1146ad16f7e8649e94fb4fc21fe77e8310c060f61caaff8a";
    Stored(blobs, digest) && Holds(blobs, digest, Obj(map[])) && blobs[digest].size == 2
  }

  /** An attestation of the image: one bill of materials and one provenance statement. */
  ghost predicate AttestationPublished(blobs: Blobs, at: Attestation, image: string) {
    && Holds(blobs, at.manifest, AttestationManifest(blobs, at, image))
    && Stored(blobs, image) && EmptyConfigStored(blobs)
    && StatementPublished(blobs, at.first, image) && StatementPublished(blobs, at.second, image)
    && {at.first.kind, at.second.kind} == {"https://spdx.dev/Document", "https://slsa.dev/provenance/v1"}
  }

  lemma AnnotationsAre(v: Json, key: string)
    requires HasKeys(v, {key}) && v.fields[key].Str?
    ensures v == Obj(map[key := Str(v.fields[key].s)])
  {
  }

  lemma StatementLayerOut(blobs: Blobs, v: Json, image: string) returns (s: Statement)
    requires AttestationLayerOk(blobs, v, image) && Sha256(image)
    ensures v == StatementLayer(blobs, s) && StatementPublished(blobs, s, image)
    ensures PredicateOf(v) == Str(s.kind) && s.kind in ATTESTATION_PREDICATES && DigestOf(v) == s.digest
  {
    hide DescriptorOk, Plain, Sha256, StatementOk, StatementPublished, JsonBlob;
    DescriptorOut(blobs, v);
    s := StatementOut(blobs, DigestOf(v), PredicateOf(v).s, image);
    AnnotationsAre(Field(v, "annotations"), "in-toto.io/predicate-type");
    OnlyAnnotations(v);
  }

  lemma OnlyAnnotations(v: Json)
    requires v.Obj? && Extras(ExtrasOf(v)) && PlainLayer(v) && Has(v, "annotations")
    ensures ExtrasOf(v) == map["annotations" := Field(v, "annotations")]
  {
    hide Notes;
    DescriptorKeys();
  }

  lemma StatementLayerIn(blobs: Blobs, s: Statement, image: string)
    requires Sha256(image) && StatementPublished(blobs, s, image) && s.kind in ATTESTATION_PREDICATES
    ensures AttestationLayerOk(blobs, StatementLayer(blobs, s), image)
    ensures PredicateOf(StatementLayer(blobs, s)) == Str(s.kind) && DigestOf(StatementLayer(blobs, s)) == s.digest
  {
    hide DescriptorOk, Sha256, StatementOk, JsonBlob, DigestOf, MediaOf, Plain, Notes;
    var notes := Obj(map["in-toto.io/predicate-type" := Str(s.kind)]);
    var extras: map<string, Json> := map["annotations" := notes];
    PredicateNotes(s.kind);
    MediaLengths();
    ExtraNotes(notes);
    DescriptorIn(blobs, IN_TOTO, s.digest, extras);
    StatementIn(blobs, s, image);
    var v := StatementLayer(blobs, s);
    assert v == Obj(Plain(blobs, IN_TOTO, s.digest) + extras);
    assert Field(v, "annotations") == notes;
    OptionalKeys();
    assert PlainLayer(v);
  }

  lemma OptionalKeys()
    ensures "annotations" != "platform" && "annotations" != "artifactType" && "annotations" != "data"
    ensures "platform" != "artifactType" && "platform" != "data" && "artifactType" != "data"
    ensures {"annotations", "platform", "artifactType", "data"} !! {"mediaType", "digest", "size"}
  {
    assert |"annotations"| == 11 && |"artifactType"| == 12 && |"platform"| == 8 && |"data"| == 4;
    DescriptorKeys();
  }

  lemma PredicateNotes(kind: string)
    requires kind in ATTESTATION_PREDICATES
    ensures Notes(Obj(map["in-toto.io/predicate-type" := Str(kind)]))
  {
    var fields: map<string, Json> := map["in-toto.io/predicate-type" := Str(kind)];
    assert |"in-toto.io/predicate-type"| == 25;
    assert |"https://spdx.dev/Document"| == 25 && |"https://slsa.dev/provenance/v1"| == 30;
    assert fields.Keys == {"in-toto.io/predicate-type"} && |fields| == |fields.Keys|;
  }

  lemma ExtraNotes(notes: Json)
    requires Notes(notes)
    ensures Extras(map["annotations" := notes])
  {
    hide Notes;
    OptionalKeys();
  }

  lemma EmptyConfigOut(blobs: Blobs, v: Json)
    requires AttestationConfigOk(blobs, v)
    ensures v == EmptyConfig() && EmptyConfigStored(blobs)
  {
    hide JsonBlob, Sha256, IsDigest, AnnotationsOk;
    Sha256Iff(EMPTY_JSON_DIGEST);
    HoldsIff(blobs, EMPTY_JSON_DIGEST, Obj(map[]));
    DescriptorKeys();
    OptionalKeys();
    assert v.fields == EmptyConfig().fields;
  }

  lemma EmptyConfigIn(blobs: Blobs)
    requires EmptyConfigStored(blobs)
    ensures AttestationConfigOk(blobs, EmptyConfig()) && DigestOf(EmptyConfig()) == EMPTY_JSON_DIGEST
  {
    hide JsonBlob, Sha256, DescriptorOk;
    HoldsIff(blobs, EMPTY_JSON_DIGEST, Obj(map[]));
    DescriptorKeys();
    OptionalKeys();
    MediaLengths();
    var extras: map<string, Json> := map["data" := Str("e30=")];
    DescriptorIn(blobs, OCI_EMPTY, EMPTY_JSON_DIGEST, extras);
    assert EmptyConfig() == Obj(Plain(blobs, OCI_EMPTY, EMPTY_JSON_DIGEST) + extras);
  }

  lemma KindsDiffer()
    ensures "https://spdx.dev/Document" != "https://slsa.dev/provenance/v1"
    ensures ATTESTATION_PREDICATES == {"https://spdx.dev/Document", "https://slsa.dev/provenance/v1"}
  {
    assert |"https://spdx.dev/Document"| == 25 && |"https://slsa.dev/provenance/v1"| == 30;
  }

  lemma BothKinds(layers: seq<Json>, first: string, second: string)
    requires |layers| == 2 && PredicateOf(layers[0]) == Str(first) && PredicateOf(layers[1]) == Str(second)
    requires first in ATTESTATION_PREDICATES && second in ATTESTATION_PREDICATES
    ensures PredicatesComplete(layers) <==> {first, second} == ATTESTATION_PREDICATES
  {
    hide PredicateOf;
    KindsDiffer();
    if PredicatesComplete(layers) {
      assert first != second;
    }
    if {first, second} == ATTESTATION_PREDICATES {
      assert first != second;
      assert forall p :: p in ATTESTATION_PREDICATES ==> p == first || p == second;
      assert forall p :: p in ATTESTATION_PREDICATES ==> exists i :: 0 <= i < |layers| && PredicateOf(layers[i]) == Str(p);
    }
  }

  lemma AttestationOut(blobs: Blobs, digest: string, image: string) returns (at: Attestation)
    requires AttestationOk(blobs, digest, image)
    ensures at.manifest == digest && AttestationPublished(blobs, at, image)
  {
    hide Plain, DescriptorOk, JsonBlob, Sha256, AttestationConfigOk, AttestationLayerOk, PredicateOf, StatementPublished,
      EmptyConfigStored, EmptyConfig, StatementLayer, PredicatesComplete, Holds;
    var m := JsonBlob(blobs, digest).value;
    var layers, subject := LayersOf(m), Field(m, "subject");
    EmptyConfigOut(blobs, Field(m, "config"));
    PlainOut(blobs, subject);
    forall i | 0 <= i < |layers|
      ensures AttestationLayerOk(blobs, layers[i], image)
      ensures PredicateOf(layers[i]).Str? && PredicateOf(layers[i]).s in ATTESTATION_PREDICATES
    {
      assert LayerOk(blobs, layers[i], Some(image));
      LayerParts(blobs, layers[i], Some(image));
    }
    OciClosure.TwoStatements(layers);
    var first := StatementLayerOut(blobs, layers[0], image);
    var second := StatementLayerOut(blobs, layers[1], image);
    BothKinds(layers, first.kind, second.kind);
    KindsDiffer();
    at := Attestation(digest, first, second);
    assert layers == [StatementLayer(blobs, first), StatementLayer(blobs, second)];
    ManifestIs(blobs, m, at, image);
    HoldsIff(blobs, digest, m);
  }

  lemma ManifestIs(blobs: Blobs, m: Json, at: Attestation, image: string)
    requires ManifestShape(m, true) && Is(m, "artifactType", ATTESTATION_ARTIFACT) && Field(m, "config") == EmptyConfig()
    requires Field(m, "subject") == Obj(Plain(blobs, OCI_MANIFEST, image))
    requires LayersOf(m) == [StatementLayer(blobs, at.first), StatementLayer(blobs, at.second)]
    ensures m == AttestationManifest(blobs, at, image)
  {
    hide Plain, EmptyConfig, StatementLayer;
    ManifestKeys();
    assert m.fields == AttestationManifest(blobs, at, image).fields;
  }

  lemma AttestationFields(blobs: Blobs, at: Attestation, image: string)
    ensures var m := AttestationManifest(blobs, at, image);
            && ManifestShape(m, true) && Is(m, "artifactType", ATTESTATION_ARTIFACT) && Field(m, "config") == EmptyConfig()
            && Field(m, "subject") == Obj(Plain(blobs, OCI_MANIFEST, image))
            && LayersOf(m) == [StatementLayer(blobs, at.first), StatementLayer(blobs, at.second)]
  {
    hide Plain, EmptyConfig, StatementLayer;
    ManifestKeys();
    var keys := ["schemaVersion", "mediaType", "config", "layers", "artifactType", "subject"];
    assert keys[0] == "schemaVersion" && keys[1] == "mediaType" && keys[2] == "config" && keys[3] == "layers";
    assert keys[4] == "artifactType" && keys[5] == "subject";
  }

  lemma AttestationIn(blobs: Blobs, at: Attestation, image: string)
    requires AttestationPublished(blobs, at, image)
    ensures AttestationOk(blobs, at.manifest, image)
    ensures HeldBy(blobs, at.manifest) == {EMPTY_JSON_DIGEST, image, at.first.digest, at.second.digest}
  {
    hide Plain, DescriptorOk, JsonBlob, Sha256, AttestationConfigOk, AttestationLayerOk, PredicateOf, StatementPublished,
      EmptyConfigStored, EmptyConfig, StatementLayer, PredicatesComplete, Holds, AttestationManifest, ManifestShape, LayersOf,
      Field, DigestOf, MediaOf;
    var m := AttestationManifest(blobs, at, image);
    var layers := [StatementLayer(blobs, at.first), StatementLayer(blobs, at.second)];
    HoldsIff(blobs, at.manifest, m);
    AttestationFields(blobs, at, image);
    EmptyConfigIn(blobs);
    MediaLengths();
    PlainIn(blobs, OCI_MANIFEST, image);
    KindsDiffer();
    StatementLayerIn(blobs, at.first, image);
    StatementLayerIn(blobs, at.second, image);
    BothKinds(layers, at.first.kind, at.second.kind);
    assert LayersOk(blobs, layers, Some(image));
    AttestationHolds(m);
    PlainListDigests(layers, [at.first.digest, at.second.digest]);
  }

  // ---------- The release index ----------

  function PlatformDocument(os: string, arch: string): Json {
    Obj(map["os" := Str(os), "architecture" := Str(arch)])
  }

  function ImageEntry(blobs: Blobs, digest: string, arch: string): Json {
    Obj(Plain(blobs, "application/vnd.oci.image.manifest.v1+json", digest)
        + map["platform" := PlatformDocument("linux", arch)])
  }

  function ReferenceNotes(image: string): Json {
    Obj(map["vnd.docker.reference.digest" := Str(image), "vnd.docker.reference.type" := Str("attestation-manifest")])
  }

  function AttestationEntry(blobs: Blobs, digest: string, image: string): Json {
    Obj(Plain(blobs, "application/vnd.oci.image.manifest.v1+json", digest)
        + map["platform" := PlatformDocument("unknown", "unknown"), "annotations" := ReferenceNotes(image)])
  }

  lemma SlashAt(os: string, arch: string, k: nat, s: string)
    requires os + "/" + arch == s && k < |s| && forall i :: 0 <= i < |s| && i != k ==> s[i] != '/'
    ensures os == s[..k] && arch == s[k + 1..]
  {
    assert s[|os|] == '/';
  }

  lemma PlatformOut(v: Json, os: string, arch: string)
    requires PlatformOf(v) == Some(os + "/" + arch)
    requires forall i :: 0 <= i < |os| ==> os[i] != '/'
    requires forall i :: 0 <= i < |arch| ==> arch[i] != '/'
    ensures v == PlatformDocument(os, arch)
  {
    var s := os + "/" + arch;
    SlashAt(Field(v, "os").s, Field(v, "architecture").s, |os|, s);
    assert s[..|os|] == os && s[|os| + 1..] == arch;
    assert |"os"| == 2 && |"architecture"| == 12;
    assert v.fields == PlatformDocument(os, arch).fields;
  }

  lemma PlatformIn(os: string, arch: string)
    requires 1 <= |os| <= 64 && 1 <= |arch| <= 64
    ensures PlatformOf(PlatformDocument(os, arch)) == Some(os + "/" + arch)
  {
    assert |"os"| == 2 && |"architecture"| == 12;
  }

  lemma ImageEntryOut(blobs: Blobs, v: Json, arch: string)
    requires EntryShape(blobs, v) && IsImage(v) && PlatformName(v) == "linux" + "/" + arch
    requires forall i :: 0 <= i < |arch| ==> arch[i] != '/'
    ensures Stored(blobs, DigestOf(v)) && v == ImageEntry(blobs, DigestOf(v), arch)
  {
    hide DescriptorOk, Plain, Sha256, PlatformOf, Notes;
    DescriptorOut(blobs, v);
    PlatformOut(Field(v, "platform"), "linux", arch);
    PlatformPresent(v);
    OptionalKeys();
    var extras: map<string, Json> := map["platform" := Field(v, "platform")];
    assert ExtrasOf(v) == extras;
  }

  lemma PlatformPresent(v: Json)
    requires PlatformOf(Field(v, "platform")).Some?
    ensures Has(v, "platform")
  {
  }

  lemma AttestationEntryOut(blobs: Blobs, v: Json)
    requires EntryShape(blobs, v) && IsAttestation(v)
    ensures Stored(blobs, DigestOf(v)) && Sha256(ReferenceOf(v))
    ensures v == AttestationEntry(blobs, DigestOf(v), ReferenceOf(v))
  {
    hide DescriptorOk, Plain, Sha256, IsDigest, PlatformOf, Notes;
    DescriptorOut(blobs, v);
    Sha256Iff(ReferenceOf(v));
    assert UNKNOWN_PLATFORM == "unknown" + "/" + "unknown";
    PlatformOut(Field(v, "platform"), "unknown", "unknown");
    PlatformPresent(v);
    OptionalKeys();
    NotesAre(Field(v, "annotations"), ReferenceOf(v));
    var extras: map<string, Json> := map["platform" := Field(v, "platform"), "annotations" := Field(v, "annotations")];
    assert ExtrasOf(v) == extras;
  }

  lemma NotesAre(notes: Json, image: string)
    requires HasKeys(notes, {"vnd.docker.reference.digest", "vnd.docker.reference.type"})
    requires Field(notes, "vnd.docker.reference.digest") == Str(image) && Is(notes, "vnd.docker.reference.type", ATTESTATION_TYPE)
    ensures notes == ReferenceNotes(image)
  {
    assert |"vnd.docker.reference.digest"| == 27 && |"vnd.docker.reference.type"| == 25;
    assert notes.fields == ReferenceNotes(image).fields;
  }

  lemma ReferenceNotesIn(image: string)
    requires Sha256(image)
    ensures var notes := ReferenceNotes(image);
            && Notes(notes) && HasKeys(notes, {"vnd.docker.reference.digest", "vnd.docker.reference.type"})
            && Field(notes, "vnd.docker.reference.digest") == Str(image)
            && Is(notes, "vnd.docker.reference.type", ATTESTATION_TYPE)
  {
    assert |"vnd.docker.reference.digest"| == 27 && |"vnd.docker.reference.type"| == 25 && |"attestation-manifest"| == 20;
    var fields := ReferenceNotes(image).fields;
    assert fields.Keys == {"vnd.docker.reference.digest", "vnd.docker.reference.type"} && |fields| == |fields.Keys| == 2;
  }

  lemma ImageEntryIn(blobs: Blobs, digest: string, arch: string)
    requires Stored(blobs, digest) && arch in {"amd64", "arm64"}
    ensures var v := ImageEntry(blobs, digest, arch);
            && EntryShape(blobs, v) && IsImage(v) && PlatformName(v) == "linux" + "/" + arch && DigestOf(v) == digest
  {
    hide DescriptorOk, Plain, Sha256, PlatformOf, Notes, PlatformDocument;
    var extras: map<string, Json> := map["platform" := PlatformDocument("linux", arch)];
    OptionalKeys();
    MediaLengths();
    DescriptorIn(blobs, OCI_MANIFEST, digest, extras);
    assert |"linux"| == 5 && |"amd64"| == 5 && |"arm64"| == 5;
    PlatformIn("linux", arch);
    var v := ImageEntry(blobs, digest, arch);
    assert Field(v, "platform") == PlatformDocument("linux", arch);
    assert "linux" + "/" + "amd64" == AMD64 && "linux" + "/" + "arm64" == ARM64;
    assert !Has(v, "annotations") && !Has(v, "artifactType") && !Has(v, "data");
  }

  function ReferenceExtras(image: string): map<string, Json> {
    map["platform" := PlatformDocument("unknown", "unknown"), "annotations" := ReferenceNotes(image)]
  }

  lemma ReferenceExtrasIn(image: string)
    requires Sha256(image)
    ensures var extras := ReferenceExtras(image);
            && Extras(extras) && extras.Keys == {"platform", "annotations"}
            && extras["platform"] == PlatformDocument("unknown", "unknown")
            && extras["annotations"] == ReferenceNotes(image)
  {
    hide Sha256, Notes, PlatformDocument, ReferenceNotes;
    OptionalKeys();
    ReferenceNotesIn(image);
  }

  lemma UnknownPlatform()
    ensures PlatformOf(PlatformDocument("unknown", "unknown")) == Some(UNKNOWN_PLATFORM)
    ensures UNKNOWN_PLATFORM !in PLATFORMS
  {
    assert |"unknown"| == 7;
    PlatformIn("unknown", "unknown");
    assert "unknown" + "/" + "unknown" == UNKNOWN_PLATFORM;
    assert |UNKNOWN_PLATFORM| == 15 && |AMD64| == 11 && |ARM64| == 11;
  }

  lemma AttestationEntryIn(blobs: Blobs, digest: string, image: string)
    requires Stored(blobs, digest) && Sha256(image)
    ensures var v := AttestationEntry(blobs, digest, image);
            && EntryShape(blobs, v) && IsAttestation(v) && ReferenceOf(v) == image && DigestOf(v) == digest
  {
    hide DescriptorOk, Plain, Sha256, IsDigest, PlatformOf, PlatformDocument, ReferenceNotes, ReferenceExtras, Extras,
      DigestOf, MediaOf;
    var extras, v := ReferenceExtras(image), AttestationEntry(blobs, digest, image);
    assert v == Obj(Plain(blobs, OCI_MANIFEST, digest) + extras) by {
      EntryIsPlainWithExtras(blobs, digest, image);
    }
    ReferenceExtrasIn(image);
    MediaLengths();
    DescriptorIn(blobs, OCI_MANIFEST, digest, extras);
    OptionalKeys();
    assert Field(v, "platform") == extras["platform"] && Field(v, "annotations") == extras["annotations"];
    assert !Has(v, "artifactType") && !Has(v, "data");
    UnknownPlatform();
    ReferenceNotesIn(image);
    Sha256Iff(image);
  }

  lemma EntryIsPlainWithExtras(blobs: Blobs, digest: string, image: string)
    ensures AttestationEntry(blobs, digest, image) == Obj(Plain(blobs, OCI_MANIFEST, digest) + ReferenceExtras(image))
  {
  }

  // ---------- Indexes ----------

  function Noted(notes: Option<Json>): map<string, Json> {
    if notes.Some? then map["annotations" := notes.value] else map[]
  }

  predicate NotesOk(notes: Option<Json>) {
    notes.Some? ==> Notes(notes.value)
  }

  function IndexDocument(entries: seq<Json>, notes: Option<Json>): Json {
    Obj(map["schemaVersion" := Num(2),
            "mediaType" := Str("application/vnd.oci.image.index.v1+json"),
            "manifests" := List(entries)] + Noted(notes))
  }

  function NotesIn(v: Json): Option<Json> {
    if Has(v, "annotations") then Some(Field(v, "annotations")) else None
  }

  lemma IndexKeys()
    ensures forall i, j :: 0 <= i < j < 4 ==>
      ["schemaVersion", "mediaType", "manifests", "annotations"][i] != ["schemaVersion", "mediaType", "manifests", "annotations"][j]
  {
    var keys, lengths := ["schemaVersion", "mediaType", "manifests", "annotations"], [13, 9, 9, 11];
    assert forall i :: 0 <= i < 4 ==> |keys[i]| == lengths[i];
    assert keys[1][1] == 'e' && keys[2][1] == 'a';
  }

  lemma IndexOut(v: Json)
    requires IndexOk(v)
    ensures v == IndexDocument(ManifestsOf(v), NotesIn(v)) && NotesOk(NotesIn(v)) && ManifestsOf(v) != []
  {
    hide Notes, AnnotationsOk;
    IndexKeys();
    NotesIff(Field(v, "annotations"));
    assert v.fields == IndexDocument(ManifestsOf(v), NotesIn(v)).fields;
  }

  lemma IndexIn(entries: seq<Json>, notes: Option<Json>)
    requires entries != [] && NotesOk(notes)
    ensures var v := IndexDocument(entries, notes); IndexOk(v) && ManifestsOf(v) == entries
  {
    hide Notes, AnnotationsOk;
    IndexKeys();
    var keys := ["schemaVersion", "mediaType", "manifests", "annotations"];
    assert keys[0] == "schemaVersion" && keys[1] == "mediaType" && keys[2] == "manifests" && keys[3] == "annotations";
    if notes.Some? {
      NotesIff(notes.value);
    }
  }

  function RootEntry(blobs: Blobs, digest: string, notes: Option<Json>): Json {
    Obj(Plain(blobs, "application/vnd.oci.image.index.v1+json", digest) + Noted(notes))
  }

  lemma RootEntryOut(blobs: Blobs, v: Json, expected: string)
    requires RootEntryOk(blobs, v, expected)
    ensures Stored(blobs, expected) && NotesOk(NotesIn(v)) && v == RootEntry(blobs, expected, NotesIn(v))
  {
    hide DescriptorOk, Plain, Sha256, Notes;
    DescriptorOut(blobs, v);
    OptionalKeys();
    assert ExtrasOf(v) == Noted(NotesIn(v));
  }

  lemma RootEntryIn(blobs: Blobs, expected: string, notes: Option<Json>)
    requires Stored(blobs, expected) && NotesOk(notes)
    ensures RootEntryOk(blobs, RootEntry(blobs, expected, notes), expected)
  {
    hide DescriptorOk, Plain, Sha256, Notes, DigestOf, MediaOf;
    MediaLengths();
    OptionalKeys();
    DescriptorIn(blobs, OCI_INDEX, expected, Noted(notes));
  }

  // ---------- Publications ----------

  /** Everything a release consists of. */
  datatype Publication = Publication(
    amd64: Image, arm64: Image, ofAmd64: Attestation, ofArm64: Attestation, entries: seq<Json>,
    notes: Option<Json>, rootNotes: Option<Json>, entryNotes: Option<Json>)

  function FourEntries(blobs: Blobs, p: Publication): seq<Json> {
    [ImageEntry(blobs, p.amd64.manifest, "amd64"), ImageEntry(blobs, p.arm64.manifest, "arm64"),
     AttestationEntry(blobs, p.ofAmd64.manifest, p.amd64.manifest),
     AttestationEntry(blobs, p.ofArm64.manifest, p.arm64.manifest)]
  }

  predicate FourPlaces(a: nat, b: nat, c: nat, d: nat) {
    && a < 4 && b < 4 && c < 4 && d < 4
    && a != b && a != c && a != d && b != c && b != d && c != d
  }

  /** The same four entries in some order. */
  ghost predicate Arranged(es: seq<Json>, four: seq<Json>, a: nat, b: nat, c: nat, d: nat) {
    && |es| == 4 && |four| == 4 && FourPlaces(a, b, c, d)
    && es[a] == four[0] && es[b] == four[1] && es[c] == four[2] && es[d] == four[3]
  }

  function NamedByImage(im: Image): set<string> {
    {im.manifest, im.config} + Listed(im.layers)
  }

  function NamedByAttestation(at: Attestation): set<string> {
    {at.manifest, at.first.digest, at.second.digest,
     "sha256:44136fa355b3678a1146ad16f7e8649e94fb4fc21fe77e8310c060f61caaff8a"}
  }

  ghost predicate EntriesPublished(blobs: Blobs, p: Publication) {
    && (exists a: nat, b: nat, c: nat, d: nat :: Arranged(p.entries, FourEntries(blobs, p), a, b, c, d))
    && Stored(blobs, p.amd64.manifest) && Stored(blobs, p.arm64.manifest) && p.amd64.manifest != p.arm64.manifest
    && Stored(blobs, p.ofAmd64.manifest) && Stored(blobs, p.ofArm64.manifest) && p.ofAmd64.manifest != p.ofArm64.manifest
  }

  ghost predicate ManifestsPublished(blobs: Blobs, p: Publication) {
    && ImagePublished(blobs, p.amd64, "amd64") && ImagePublished(blobs, p.arm64, "arm64")
    && AttestationPublished(blobs, p.ofAmd64, p.amd64.manifest)
    && AttestationPublished(blobs, p.ofArm64, p.arm64.manifest)
  }

  ghost predicate IndexesPublished(blobs: Blobs, rootIndex: Json, expected: string, p: Publication) {
    && Stored(blobs, expected) && NotesOk(p.notes) && NotesOk(p.rootNotes) && NotesOk(p.entryNotes)
    && rootIndex == IndexDocument([RootEntry(blobs, expected, p.entryNotes)], p.rootNotes)
    && Holds(blobs, expected, IndexDocument(p.entries, p.notes))
  }

  /** The layout holds the documents of the publication, and no blob that they do not name. */
  ghost predicate Published(blobs: Blobs, rootIndex: Json, expected: string, p: Publication) {
    && IndexesPublished(blobs, rootIndex, expected, p)
    && EntriesPublished(blobs, p) && ManifestsPublished(blobs, p)
    && blobs.Keys == {expected} + (NamedByImage(p.amd64) + NamedByAttestation(p.ofAmd64))
                     + (NamedByImage(p.arm64) + NamedByAttestation(p.ofArm64))
  }

  lemma IndexesOut(blobs: Blobs, rootIndex: Json, expected: string, p: Publication)
    requires IndexesOk(blobs, rootIndex, expected)
    requires p.entries == Entries(blobs, expected) && p.notes == NotesIn(Document(blobs, expected))
    requires p.rootNotes == NotesIn(rootIndex) && p.entryNotes == NotesIn(ManifestsOf(rootIndex)[0])
    ensures IndexesPublished(blobs, rootIndex, expected, p)
  {
    hide IndexOk, RootEntryOk, JsonBlob, Sha256, IsDigest, Notes, Holds, IndexDocument, RootEntry, ManifestsOf, NotesIn;
    IndexOut(rootIndex);
    RootEntryOut(blobs, ManifestsOf(rootIndex)[0], expected);
    IndexOut(Document(blobs, expected));
    HoldsIff(blobs, expected, Document(blobs, expected));
    assert ManifestsOf(rootIndex) == [ManifestsOf(rootIndex)[0]];
  }

  lemma IndexesIn(blobs: Blobs, rootIndex: Json, expected: string, p: Publication)
    requires IndexesPublished(blobs, rootIndex, expected, p) && |p.entries| == 4
    ensures IndexesOk(blobs, rootIndex, expected) && Entries(blobs, expected) == p.entries
  {
    hide IndexOk, RootEntryOk, JsonBlob, Sha256, IsDigest, Notes, Holds, IndexDocument, RootEntry, ManifestsOf;
    var doc := IndexDocument(p.entries, p.notes);
    IndexIn([RootEntry(blobs, expected, p.entryNotes)], p.rootNotes);
    RootEntryIn(blobs, expected, p.entryNotes);
    IndexIn(p.entries, p.notes);
    HoldsIff(blobs, expected, doc);
    Sha256Iff(expected);
  }

  // ---------- Acceptance ----------

  lemma FourCases(a: nat, b: nat, c: nat, d: nat, i: nat)
    requires FourPlaces(a, b, c, d) && i < 4
    ensures i == a || i == b || i == c || i == d
  {
  }

  lemma ManifestsOut(blobs: Blobs, es: seq<Json>, a: nat, b: nat, c: nat, d: nat)
      returns (amd64: Image, arm64: Image, ofAmd64: Attestation, ofArm64: Attestation)
    requires ManifestsOk(blobs, es) && OciClosure.Roles(es, a, b, c, d)
    ensures amd64.manifest == DigestOf(es[a]) && ImagePublished(blobs, amd64, "amd64")
    ensures arm64.manifest == DigestOf(es[b]) && ImagePublished(blobs, arm64, "arm64")
    ensures ofAmd64.manifest == DigestOf(es[c]) && AttestationPublished(blobs, ofAmd64, DigestOf(es[a]))
    ensures ofArm64.manifest == DigestOf(es[d]) && AttestationPublished(blobs, ofArm64, DigestOf(es[b]))
  {
    hide IsImage, IsAttestation, PlatformName, ReferenceOf, DigestOf, ImageOk, AttestationOk, ImagePublished, AttestationPublished;
    assert ManifestOk(blobs, es[a]) && ManifestOk(blobs, es[b]) && ManifestOk(blobs, es[c]) && ManifestOk(blobs, es[d]);
    assert AMD64 == "linux" + "/" + "amd64" && ARM64 == "linux" + "/" + "arm64";
    NotBoth(es[c]);
    NotBoth(es[d]);
    amd64 := ImageOut(blobs, DigestOf(es[a]), "amd64");
    arm64 := ImageOut(blobs, DigestOf(es[b]), "arm64");
    ofAmd64 := AttestationOut(blobs, DigestOf(es[c]), DigestOf(es[a]));
    ofArm64 := AttestationOut(blobs, DigestOf(es[d]), DigestOf(es[b]));
  }

  lemma EntriesOut(blobs: Blobs, p: Publication, a: nat, b: nat, c: nat, d: nat)
    requires EntriesOk(blobs, p.entries) && OciClosure.Roles(p.entries, a, b, c, d)
    requires p.amd64.manifest == DigestOf(p.entries[a]) && p.arm64.manifest == DigestOf(p.entries[b])
    requires p.ofAmd64.manifest == DigestOf(p.entries[c]) && p.ofArm64.manifest == DigestOf(p.entries[d])
    ensures EntriesPublished(blobs, p)
  {
    hide IsImage, IsAttestation, PlatformName, ReferenceOf, DigestOf, EntryShape, ImageEntry, AttestationEntry, Sha256;
    var es := p.entries;
    assert EntryOk(blobs, es[a]) && EntryOk(blobs, es[b]) && EntryOk(blobs, es[c]) && EntryOk(blobs, es[d]);
    assert AMD64 == "linux" + "/" + "amd64" && ARM64 == "linux" + "/" + "arm64";
    ImageEntryOut(blobs, es[a], "amd64");
    ImageEntryOut(blobs, es[b], "arm64");
    AttestationEntryOut(blobs, es[c]);
    AttestationEntryOut(blobs, es[d]);
    OciClosure.AnyTwoApart(blobs, es, c, d);
    assert Arranged(es, FourEntries(blobs, p), a, b, c, d);
  }

  /** What the four manifests name, by way of the index and by way of the publication. */
  lemma NamedTwice(blobs: Blobs, p: Publication, a: nat, b: nat, c: nat, d: nat)
    requires ManifestsPublished(blobs, p) && |p.entries| == 4 && FourPlaces(a, b, c, d)
    requires p.amd64.manifest == DigestOf(p.entries[a]) && p.arm64.manifest == DigestOf(p.entries[b])
    requires p.ofAmd64.manifest == DigestOf(p.entries[c]) && p.ofArm64.manifest == DigestOf(p.entries[d])
    ensures Digests(p.entries) + HeldByEntries(blobs, p.entries)
         == (NamedByImage(p.amd64) + NamedByAttestation(p.ofAmd64)) + (NamedByImage(p.arm64) + NamedByAttestation(p.ofArm64))
  {
    hide DigestOf, ImagePublished, AttestationPublished, HeldBy, Listed, Digests, HeldByEntries, NamedByImage, NamedByAttestation;
    var es := p.entries;
    PairNames(blobs, p.amd64, "amd64", p.ofAmd64);
    PairNames(blobs, p.arm64, "arm64", p.ofArm64);
    DigestsOfFour(es, a, b, c, d);
    HeldByFour(blobs, es, a, b, c, d);
    Regroup(p.amd64.manifest, p.arm64.manifest, p.ofAmd64.manifest, p.ofArm64.manifest,
            HeldBy(blobs, p.amd64.manifest), HeldBy(blobs, p.arm64.manifest),
            HeldBy(blobs, p.ofAmd64.manifest), HeldBy(blobs, p.ofArm64.manifest));
  }

  /** An image and its attestation: their own digests with what they hold. */
  lemma PairNames(blobs: Blobs, im: Image, arch: string, at: Attestation)
    requires ImagePublished(blobs, im, arch) && AttestationPublished(blobs, at, im.manifest)
    ensures {im.manifest, at.manifest} + HeldBy(blobs, im.manifest) + HeldBy(blobs, at.manifest)
         == NamedByImage(im) + NamedByAttestation(at)
  {
    hide ImagePublished, AttestationPublished, HeldBy, Listed;
    ImageIn(blobs, im, arch);
    AttestationIn(blobs, at, im.manifest);
  }

  lemma Regroup(a: string, b: string, c: string, d: string, ha: set<string>, hb: set<string>, hc: set<string>, hd: set<string>)
    ensures {a, b, c, d} + (ha + hb + hc + hd) == ({a, c} + ha + hc) + ({b, d} + hb + hd)
  {
  }

  lemma DigestsOfFour(es: seq<Json>, a: nat, b: nat, c: nat, d: nat)
    requires |es| == 4 && FourPlaces(a, b, c, d)
    ensures Digests(es) == {DigestOf(es[a]), DigestOf(es[b]), DigestOf(es[c]), DigestOf(es[d])}
  {
    hide DigestOf;
    assert forall v :: v in es <==> v == es[a] || v == es[b] || v == es[c] || v == es[d];
  }

  lemma HeldByFour(blobs: Blobs, es: seq<Json>, a: nat, b: nat, c: nat, d: nat)
    requires |es| == 4 && FourPlaces(a, b, c, d)
    ensures HeldByEntries(blobs, es)
         == HeldBy(blobs, DigestOf(es[a])) + HeldBy(blobs, DigestOf(es[b]))
            + HeldBy(blobs, DigestOf(es[c])) + HeldBy(blobs, DigestOf(es[d]))
  {
    hide DigestOf, HeldBy;
    assert forall v :: v in es <==> v == es[a] || v == es[b] || v == es[c] || v == es[d];
  }

  lemma NamedIsStored(blobs: Blobs, p: Publication)
    requires EntriesPublished(blobs, p) && ManifestsPublished(blobs, p)
    ensures NamedByImage(p.amd64) + NamedByImage(p.arm64) + NamedByAttestation(p.ofAmd64) + NamedByAttestation(p.ofArm64)
         <= blobs.Keys
  {
    hide Sha256, ImagePublished, AttestationPublished, NamedByImage, NamedByAttestation, FourEntries;
    ImageIsStored(blobs, p.amd64, "amd64");
    ImageIsStored(blobs, p.arm64, "arm64");
    AttestationIsStored(blobs, p.ofAmd64, p.amd64.manifest);
    AttestationIsStored(blobs, p.ofArm64, p.arm64.manifest);
  }

  lemma AttestationIsStored(blobs: Blobs, at: Attestation, image: string)
    requires AttestationPublished(blobs, at, image) && Stored(blobs, at.manifest)
    ensures NamedByAttestation(at) <= blobs.Keys
  {
    hide Sha256, Holds, AttestationManifest, StatementDocument;
  }

  lemma ImageIsStored(blobs: Blobs, im: Image, arch: string)
    requires ImagePublished(blobs, im, arch) && Stored(blobs, im.manifest)
    ensures NamedByImage(im) <= blobs.Keys
  {
    hide Sha256, Holds, Configures, ImageManifest;
    forall d | d in im.layers
      ensures d in blobs
    {
      var i :| 0 <= i < |im.layers| && im.layers[i] == d;
    }
  }

  lemma AcceptedOut(blobs: Blobs, rootIndex: Json, expected: string) returns (p: Publication)
    requires Acceptable(blobs, rootIndex, expected)
    ensures Published(blobs, rootIndex, expected, p)
  {
    hide EntriesOk, Paired, ManifestsOk, IndexesOk, Entries, Document, IsDigest, ManifestsOf, DigestOf, IsImage, IsAttestation,
      PlatformName, ReferenceOf, ManifestsPublished, EntriesPublished, IndexesPublished, Digests, HeldByEntries, NotesIn,
      ImagePublished, AttestationPublished;
    var es := Entries(blobs, expected);
    var a, b, c, d := RolesOf(blobs, rootIndex, expected);
    var amd64, arm64, ofAmd64, ofArm64 := ManifestsOut(blobs, es, a, b, c, d);
    p := PublicationOf(blobs, rootIndex, expected, amd64, arm64, ofAmd64, ofArm64);
    EntriesOut(blobs, p, a, b, c, d);
    assert ManifestsPublished(blobs, p) by {
      TogetherPublished(blobs, p);
    }
    NamedTwice(blobs, p, a, b, c, d);
    NamedIsStored(blobs, p);
    ExpectedStored(blobs, rootIndex, expected, p);
  }

  lemma RolesOf(blobs: Blobs, rootIndex: Json, expected: string) returns (a: nat, b: nat, c: nat, d: nat)
    requires Acceptable(blobs, rootIndex, expected)
    ensures OciClosure.Roles(Entries(blobs, expected), a, b, c, d)
  {
    hide EntriesOk, Paired, ManifestsOk, IndexOk, Document, IsDigest, ManifestsOf, DigestOf, RootEntryOk, NothingLeftOver,
      OciClosure.Roles, JsonBlob;
    a, b, c, d := OciClosure.FindRoles(blobs, Entries(blobs, expected));
  }

  lemma PublicationOf(blobs: Blobs, rootIndex: Json, expected: string,
                      amd64: Image, arm64: Image, ofAmd64: Attestation, ofArm64: Attestation) returns (p: Publication)
    requires IndexesOk(blobs, rootIndex, expected)
    ensures p.entries == Entries(blobs, expected) && IndexesPublished(blobs, rootIndex, expected, p)
    ensures p.amd64 == amd64 && p.arm64 == arm64 && p.ofAmd64 == ofAmd64 && p.ofArm64 == ofArm64
  {
    hide IndexOk, RootEntryOk, JsonBlob, IsDigest, NotesIn, IndexesPublished;
    p := Publication(amd64, arm64, ofAmd64, ofArm64, Entries(blobs, expected), NotesIn(Document(blobs, expected)),
                     NotesIn(rootIndex), NotesIn(ManifestsOf(rootIndex)[0]));
    IndexesOut(blobs, rootIndex, expected, p);
  }

  lemma TogetherPublished(blobs: Blobs, p: Publication)
    requires ImagePublished(blobs, p.amd64, "amd64") && ImagePublished(blobs, p.arm64, "arm64")
    requires AttestationPublished(blobs, p.ofAmd64, p.amd64.manifest)
    requires AttestationPublished(blobs, p.ofArm64, p.arm64.manifest)
    ensures ManifestsPublished(blobs, p)
  {
  }

  lemma ExpectedStored(blobs: Blobs, rootIndex: Json, expected: string, p: Publication)
    requires IndexesPublished(blobs, rootIndex, expected, p)
    ensures expected in blobs
  {
  }

  /** Two images and the attestation of each, at four places of the list. */
  ghost predicate TwoPairs(es: seq<Json>, a: nat, b: nat, c: nat, d: nat) {
    && |es| == 4 && FourPlaces(a, b, c, d)
    && IsImage(es[a]) && IsImage(es[b]) && IsAttestation(es[c]) && IsAttestation(es[d])
    && ReferenceOf(es[c]) == DigestOf(es[a]) && ReferenceOf(es[d]) == DigestOf(es[b])
  }

  lemma PairsResolve(es: seq<Json>, a: nat, b: nat, c: nat, d: nat)
    requires TwoPairs(es, a, b, c, d)
    ensures ReferencesResolve(es)
  {
    hide IsImage, IsAttestation, ReferenceOf, DigestOf;
    NotBoth(es[a]);
    NotBoth(es[b]);
    forall i | 0 <= i < |es| && IsAttestation(es[i])
      ensures exists j :: 0 <= j < |es| && IsImage(es[j]) && DigestOf(es[j]) == ReferenceOf(es[i])
    {
      FourCases(a, b, c, d, i);
      var j := if i == c then a else b;
      assert IsImage(es[j]) && DigestOf(es[j]) == ReferenceOf(es[i]);
    }
  }

  lemma PairsAttested(es: seq<Json>, a: nat, b: nat, c: nat, d: nat)
    requires TwoPairs(es, a, b, c, d)
    ensures ImagesAttested(es)
  {
    hide IsImage, IsAttestation, ReferenceOf, DigestOf;
    NotBoth(es[c]);
    NotBoth(es[d]);
    forall i | 0 <= i < |es| && IsImage(es[i])
      ensures exists j :: 0 <= j < |es| && IsAttestation(es[j]) && ReferenceOf(es[j]) == DigestOf(es[i])
    {
      FourCases(a, b, c, d, i);
      var j := if i == a then c else d;
      assert IsAttestation(es[j]) && ReferenceOf(es[j]) == DigestOf(es[i]);
    }
  }

  lemma PairsCover(es: seq<Json>, a: nat, b: nat)
    requires a < |es| && b < |es| && IsImage(es[a]) && PlatformName(es[a]) == AMD64
    requires IsImage(es[b]) && PlatformName(es[b]) == ARM64
    ensures Cover(es, PLATFORMS)
  {
    hide IsImage, PlatformName;
    forall p | p in PLATFORMS
      ensures exists i :: 0 <= i < |es| && IsImage(es[i]) && PlatformName(es[i]) == p
    {
      var i := if p == AMD64 then a else b;
      assert IsImage(es[i]) && PlatformName(es[i]) == p;
    }
  }

  lemma PairsApart(es: seq<Json>, a: nat, b: nat, c: nat, d: nat, i: nat, j: nat)
    requires TwoPairs(es, a, b, c, d) && i < j < 4
    requires PlatformName(es[a]) != PlatformName(es[b])
    requires DigestOf(es[a]) != DigestOf(es[b]) && DigestOf(es[c]) != DigestOf(es[d])
    ensures Apart(es[i], es[j])
  {
    hide IsImage, IsAttestation, ReferenceOf, DigestOf, PlatformName;
    NotBoth(es[a]);
    NotBoth(es[b]);
    NotBoth(es[c]);
    NotBoth(es[d]);
    FourCases(a, b, c, d, i);
    FourCases(a, b, c, d, j);
  }

  /** Entries that fill the four roles, with distinct images and distinct attestations, are accepted. */
  lemma RolesAccepted(blobs: Blobs, es: seq<Json>, a: nat, b: nat, c: nat, d: nat)
    requires OciClosure.Roles(es, a, b, c, d)
    requires forall i :: 0 <= i < 4 ==> EntryShape(blobs, es[i])
    requires DigestOf(es[a]) != DigestOf(es[b]) && DigestOf(es[c]) != DigestOf(es[d])
    ensures EntriesOk(blobs, es) && Paired(es)
  {
    hide IsImage, IsAttestation, PlatformName, ReferenceOf, DigestOf, EntryShape, Apart, Cover, ReferencesResolve, ImagesAttested;
    OciClosure.PlatformsDiffer();
    assert TwoPairs(es, a, b, c, d);
    forall i | 0 <= i < 4
      ensures EntryOk(blobs, es[i])
    {
      FourCases(a, b, c, d, i);
    }
    forall i, j | 0 <= i < j < 4
      ensures Apart(es[i], es[j])
    {
      PairsApart(es, a, b, c, d, i, j);
    }
    PairsCover(es, a, b);
    PairsResolve(es, a, b, c, d);
    PairsAttested(es, a, b, c, d);
  }

  lemma EntriesIn(blobs: Blobs, p: Publication, a: nat, b: nat, c: nat, d: nat)
    requires EntriesPublished(blobs, p) && Arranged(p.entries, FourEntries(blobs, p), a, b, c, d)
    ensures OciClosure.Roles(p.entries, a, b, c, d)
    ensures EntriesOk(blobs, p.entries) && Paired(p.entries)
    ensures p.amd64.manifest == DigestOf(p.entries[a]) && p.arm64.manifest == DigestOf(p.entries[b])
    ensures p.ofAmd64.manifest == DigestOf(p.entries[c]) && p.ofArm64.manifest == DigestOf(p.entries[d])
  {
    hide IsImage, IsAttestation, PlatformName, ReferenceOf, DigestOf, EntryShape, ImageEntry, AttestationEntry, Sha256,
      EntriesOk, Paired;
    var es := p.entries;
    ImageEntryIn(blobs, p.amd64.manifest, "amd64");
    ImageEntryIn(blobs, p.arm64.manifest, "arm64");
    AttestationEntryIn(blobs, p.ofAmd64.manifest, p.amd64.manifest);
    AttestationEntryIn(blobs, p.ofArm64.manifest, p.arm64.manifest);
    assert AMD64 == "linux" + "/" + "amd64" && ARM64 == "linux" + "/" + "arm64";
    forall i | 0 <= i < 4
      ensures EntryShape(blobs, es[i])
    {
      FourCases(a, b, c, d, i);
    }
    RolesAccepted(blobs, es, a, b, c, d);
  }

  lemma ManifestsIn(blobs: Blobs, p: Publication, a: nat, b: nat, c: nat, d: nat)
    requires ManifestsPublished(blobs, p) && OciClosure.Roles(p.entries, a, b, c, d)
    requires p.amd64.manifest == DigestOf(p.entries[a]) && p.arm64.manifest == DigestOf(p.entries[b])
    requires p.ofAmd64.manifest == DigestOf(p.entries[c]) && p.ofArm64.manifest == DigestOf(p.entries[d])
    ensures ManifestsOk(blobs, p.entries)
  {
    hide IsImage, IsAttestation, PlatformName, ReferenceOf, DigestOf, ImageOk, AttestationOk, ImagePublished, AttestationPublished;
    var es := p.entries;
    ImageIn(blobs, p.amd64, "amd64");
    ImageIn(blobs, p.arm64, "arm64");
    AttestationIn(blobs, p.ofAmd64, p.amd64.manifest);
    AttestationIn(blobs, p.ofArm64, p.arm64.manifest);
    assert AMD64 == "linux" + "/" + "amd64" && ARM64 == "linux" + "/" + "arm64";
    NotBoth(es[c]);
    NotBoth(es[d]);
    forall i | 0 <= i < |es|
      ensures ManifestOk(blobs, es[i])
    {
      FourCases(a, b, c, d, i);
    }
  }

  lemma AcceptedIn(blobs: Blobs, rootIndex: Json, expected: string, p: Publication)
    requires Published(blobs, rootIndex, expected, p)
    ensures Acceptable(blobs, rootIndex, expected)
  {
    hide EntriesOk, Paired, ManifestsOk, IndexesOk, Entries, DigestOf, IsImage, IsAttestation, OciClosure.Roles, FourEntries,
      PlatformName, ReferenceOf, ManifestsPublished, IndexesPublished, Digests, HeldByEntries, Sha256;
    var a: nat, b: nat, c: nat, d: nat :| Arranged(p.entries, FourEntries(blobs, p), a, b, c, d);
    EntriesIn(blobs, p, a, b, c, d);
    ManifestsIn(blobs, p, a, b, c, d);
    IndexesIn(blobs, rootIndex, expected, p);
    NamedTwice(blobs, p, a, b, c, d);
  }

  /** The validator accepts a layout exactly when its documents are those of some publication and it
      holds no other blob. */
  lemma AcceptedIff(blobs: Blobs, rootIndex: Json, expected: string)
    ensures Acceptable(blobs, rootIndex, expected) <==> exists p :: Published(blobs, rootIndex, expected, p)
  {
    hide Acceptable, Published;
    if Acceptable(blobs, rootIndex, expected) {
      var p := AcceptedOut(blobs, rootIndex, expected);
    }
    if exists p :: Published(blobs, rootIndex, expected, p) {
      var p :| Published(blobs, rootIndex, expected, p);
      AcceptedIn(blobs, rootIndex, expected, p);
    }
  }

  /** What the validator then reports: each platform with the digest of its image's manifest, and each
      image with the digest of its attestation's. */
  lemma ReportIsPublication(blobs: Blobs, rootIndex: Json, expected: string, p: Publication, r: Release)
    requires Published(blobs, rootIndex, expected, p) && Lists(r, p.entries)
    ensures r.images == map["linux/amd64" := p.amd64.manifest, "linux/arm64" := p.arm64.manifest]
    ensures r.attestations == map[p.amd64.manifest := p.ofAmd64.manifest, p.arm64.manifest := p.ofArm64.manifest]
  {
    hide IndexesPublished, ManifestsPublished, NamedByImage, NamedByAttestation, FourEntries, IsImage, IsAttestation, PlatformName,
      ReferenceOf, DigestOf, EntriesOk, Paired, Sha256;
    var a: nat, b: nat, c: nat, d: nat :| Arranged(p.entries, FourEntries(blobs, p), a, b, c, d);
    EntriesIn(blobs, p, a, b, c, d);
    NotBoth(p.entries[a]);
    NotBoth(p.entries[b]);
    NotBoth(p.entries[c]);
    NotBoth(p.entries[d]);
    forall platform | platform in r.images
      ensures platform == AMD64 || platform == ARM64
    {
      assert ImageAt(p.entries, platform, r.images[platform]);
      var i :| 0 <= i < |p.entries| && IsImage(p.entries[i]) && PlatformName(p.entries[i]) == platform;
      FourCases(a, b, c, d, i);
    }
    forall image | image in r.attestations
      ensures image == p.amd64.manifest || image == p.arm64.manifest
    {
      assert AttestationAt(p.entries, image, r.attestations[image]);
      var i :| 0 <= i < |p.entries| && IsAttestation(p.entries[i]) && ReferenceOf(p.entries[i]) == image;
      FourCases(a, b, c, d, i);
    }
    OciClosure.PlatformsDiffer();
  }

  // ---------- Sizes ----------

  /** The value is a descriptor with a well-formed digest and a bounded media type, and states the true
      size of the stored blob it names. */
  ghost predicate Bound(blobs: Blobs, v: Json) {
    && v.Obj? && {"mediaType", "digest", "size"} <= v.fields.Keys
    && v.fields["mediaType"].Str? && 1 <= |v.fields["mediaType"].s| <= 256
    && v.fields["digest"].Str? && Sha256(v.fields["digest"].s) && v.fields["digest"].s in blobs
    && v.fields["size"] == Num(blobs[v.fields["digest"].s].size)
  }

  lemma DescriptorBound(blobs: Blobs, v: Json)
    requires DescriptorOk(blobs, v)
    ensures Bound(blobs, v)
  {
    hide DescriptorOk, Sha256, Extras;
    DescriptorOut(blobs, v);
    DescriptorKeys();
  }

  /** The descriptors of a layout: of the root index, of the release index, and of each manifest the
      release index lists. */
  ghost predicate Mentioned(blobs: Blobs, rootIndex: Json, expected: string, v: Json) {
    || v in ManifestsOf(rootIndex)
    || v in Entries(blobs, expected)
    || exists e :: e in Entries(blobs, expected) && v in Held(Document(blobs, DigestOf(e)))
  }

  lemma HeldBound(blobs: Blobs, es: seq<Json>, e: Json, v: Json)
    requires EntriesOk(blobs, es) && ManifestsOk(blobs, es) && e in es && v in Held(Document(blobs, DigestOf(e)))
    ensures Bound(blobs, v)
  {
    hide IsImage, IsAttestation, PlatformName, ReferenceOf, DigestOf, ImageOk, AttestationOk, Held, Document, Bound, EntriesOk;
    OciClosure.EntryNode(blobs, es, e);
    var i :| 0 <= i < |es| && es[i] == e;
    assert ManifestOk(blobs, es[i]);
    if IsImage(e) {
      HeldByImage(blobs, DigestOf(e), PlatformName(e), v);
    } else {
      HeldByAttestation(blobs, DigestOf(e), ReferenceOf(e), v);
    }
    DescriptorBound(blobs, v);
  }

  lemma HeldByImage(blobs: Blobs, digest: string, platform: string, v: Json)
    requires ImageOk(blobs, digest, platform) && v in Held(Document(blobs, digest))
    ensures DescriptorOk(blobs, v)
  {
    hide DigestOf, MediaOf, DescriptorOk, SplitSlash, JsonBlob, LayersOf, PlainLayer;
    var m := JsonBlob(blobs, digest).value;
    ManifestKeys();
    var keys := ["schemaVersion", "mediaType", "config", "layers", "artifactType", "subject"];
    assert keys[0] == "schemaVersion" && keys[1] == "mediaType" && keys[2] == "config" && keys[3] == "layers" && keys[5] == "subject";
    assert !Has(m, "subject");
    if v != Field(m, "config") {
      var k :| 0 <= k < |LayersOf(m)| && LayersOf(m)[k] == v;
      assert LayerOk(blobs, LayersOf(m)[k], None);
    }
  }

  lemma HeldByAttestation(blobs: Blobs, digest: string, image: string, v: Json)
    requires AttestationOk(blobs, digest, image) && v in Held(Document(blobs, digest))
    ensures DescriptorOk(blobs, v)
  {
    hide DigestOf, MediaOf, DescriptorOk, JsonBlob, LayersOf, PlainLayer, PredicatesComplete, StatementOk, ManifestShape,
      PredicateOf;
    var m := JsonBlob(blobs, digest).value;
    if v != Field(m, "config") && v != Field(m, "subject") {
      var k :| 0 <= k < |LayersOf(m)| && LayersOf(m)[k] == v;
      assert LayerOk(blobs, LayersOf(m)[k], Some(image));
    }
  }

  /** No descriptor of an accepted layout misstates the size of its blob. */
  lemma EveryDescriptorBound(blobs: Blobs, rootIndex: Json, expected: string, v: Json)
    requires Acceptable(blobs, rootIndex, expected) && Mentioned(blobs, rootIndex, expected, v)
    ensures Bound(blobs, v)
  {
    hide EntriesOk, Paired, ManifestsOk, IndexOk, Document, IsDigest, ManifestsOf, DigestOf, NothingLeftOver, Bound, Held,
      DescriptorOk, JsonBlob;
    var es := Entries(blobs, expected);
    if v in ManifestsOf(rootIndex) {
      assert v == ManifestsOf(rootIndex)[0];
      DescriptorBound(blobs, v);
    } else if v in es {
      EntryBound(blobs, es, v);
    } else {
      var e :| e in es && v in Held(Document(blobs, DigestOf(e)));
      HeldBound(blobs, es, e, v);
    }
  }

  lemma EntryBound(blobs: Blobs, es: seq<Json>, v: Json)
    requires EntriesOk(blobs, es) && v in es
    ensures Bound(blobs, v)
  {
    hide IsImage, IsAttestation, PlatformOf, Apart, DescriptorOk, Bound;
    var i :| 0 <= i < |es| && es[i] == v;
    assert EntryOk(blobs, es[i]);
    DescriptorBound(blobs, v);
  }
}
