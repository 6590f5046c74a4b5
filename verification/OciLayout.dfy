/** Validation of a release image layout: a content-addressed blob store whose root index names one
    release index with two platform images and one attestation for each
    (scripts/validate_release_oci.py; Image Layout, Image Index and Image Manifest of the OCI Image
    Format Specification). */
module OciLayout {
  import opened Common

  const OCI_INDEX: string := "application/vnd.oci.image.index.v1+json"
  const OCI_MANIFEST: string := "application/vnd.oci.image.manifest.v1+json"
  const OCI_CONFIG: string := "application/vnd.oci.image.config.v1+json"
  const OCI_EMPTY: string := "application/vnd.oci.empty.v1+json"
  const OCI_LAYER_GZIP: string := "application/vnd.oci.image.layer.v1.tar+gzip"
  const IN_TOTO: string := "application/vnd.in-toto+json"
  const ATTESTATION_ARTIFACT: string := "application/vnd.docker.attestation.manifest.v1+json"
  const EMPTY_JSON_DIGEST: string := "sha256:44136fa355b3678a1146ad16f7e8649e94fb4fc21fe77e8310c060f61caaff8a"
  const STATEMENT_TYPES: set<string> := {"https://in-toto.io/Statement/v0.1", "https://in-toto.io/Statement/v1"}
  const ATTESTATION_TYPE: string := "attestation-manifest"
  const ATTESTATION_PREDICATES: set<string> := {"https://spdx.dev/Document", "https://slsa.dev/provenance/v1"}
  const AMD64: string := "linux/amd64"
  const ARM64: string := "linux/arm64"
  const PLATFORMS: set<string> := {AMD64, ARM64}
  const UNKNOWN_PLATFORM: string := "unknown/unknown"
  const MAX_JSON_BYTES: nat := 64 * 1024 * 1024

  // ---------- Documents ----------

  datatype Json =
    | Null | Bool(b: bool) | Num(n: int) | Str(s: string)
    | List(items: seq<Json>) | Obj(fields: map<string, Json>)

  /** A blob's size and the JSON object it holds, if it holds one. */
  datatype Blob = Blob(size: nat, json: Option<Json>)

  type Blobs = map<string, Blob>

  predicate Has(v: Json, key: string) {
    v.Obj? && key in v.fields
  }

  function Field(v: Json, key: string): Json {
    if Has(v, key) then v.fields[key] else Null
  }

  predicate Is(v: Json, key: string, s: string) {
    Field(v, key) == Str(s)
  }

  predicate ClosedObject(v: Json, required: set<string>, allowed: set<string>) {
    v.Obj? && required <= v.fields.Keys <= allowed
  }

  predicate BoundedString(v: Json, maximum: nat) {
    v.Str? && 0 < |v.s| <= maximum
  }

  predicate HexDigit(c: char) {
    '0' <= c <= '9' || 'a' <= c <= 'f'
  }

  predicate IsDigest(s: string) {
    |s| == 71 && s[..7] == "sha256:" && forall i :: 7 <= i < 71 ==> HexDigit(s[i])
  }

  predicate AnnotationsOk(v: Json) {
    && v.Obj? && |v.fields| <= 128
    && forall k :: k in v.fields ==> 0 < |k| <= 256 && BoundedString(v.fields[k], 4096)
  }

  function DigestOf(v: Json): string {
    if Field(v, "digest").Str? then Field(v, "digest").s else ""
  }

  function MediaOf(v: Json): string {
    if Field(v, "mediaType").Str? then Field(v, "mediaType").s else ""
  }

  const DESCRIPTOR_FIELDS: set<string> := {"mediaType", "digest", "size"}
  const DESCRIPTOR_ALLOWED: set<string> :=
    {"mediaType", "digest", "size", "annotations", "artifactType", "platform", "data"}

  predicate DescriptorShape(v: Json) {
    && ClosedObject(v, DESCRIPTOR_FIELDS, DESCRIPTOR_ALLOWED)
    && BoundedString(Field(v, "mediaType"), 256)
    && Field(v, "digest").Str? && IsDigest(DigestOf(v))
    && Field(v, "size").Num?
    && (Has(v, "annotations") ==> AnnotationsOk(Field(v, "annotations")))
    && (Has(v, "artifactType") ==> BoundedString(Field(v, "artifactType"), 256))
    && (Has(v, "data") ==> BoundedString(Field(v, "data"), 1024))
  }

  /** A well-formed descriptor that names a blob of the store with its true size. */
  predicate DescriptorOk(blobs: Blobs, v: Json) {
    && DescriptorShape(v)
    && DigestOf(v) in blobs && Field(v, "size") == Num(blobs[DigestOf(v)].size)
  }

  function JsonBlob(blobs: Blobs, digest: string): Option<Json> {
    if digest in blobs && blobs[digest].size <= MAX_JSON_BYTES
       && blobs[digest].json.Some? && blobs[digest].json.value.Obj?
    then blobs[digest].json
    else None
  }

  predicate IndexOk(v: Json) {
    && ClosedObject(v, {"schemaVersion", "mediaType", "manifests"},
                    {"schemaVersion", "mediaType", "manifests", "annotations"})
    && Field(v, "schemaVersion") == Num(2) && Is(v, "mediaType", OCI_INDEX)
    && Field(v, "manifests").List? && Field(v, "manifests").items != []
    && (Has(v, "annotations") ==> AnnotationsOk(Field(v, "annotations")))
  }

  function ManifestsOf(index: Json): seq<Json> {
    if Field(index, "manifests").List? then Field(index, "manifests").items else []
  }

  function PlatformOf(v: Json): Option<string> {
    if ClosedObject(v, {"os", "architecture"}, {"os", "architecture"})
       && BoundedString(Field(v, "os"), 64) && BoundedString(Field(v, "architecture"), 64)
    then Some(Field(v, "os").s + "/" + Field(v, "architecture").s)
    else None
  }

  /** `platform.split("/", 1)` */
  function SplitSlash(s: string): (string, string) {
    if s == "" then ("", "")
    else if s[0] == '/' then ("", s[1..])
    else
      var (a, b) := SplitSlash(s[1..]);
      ([s[0]] + a, b)
  }

  // ---------- Manifests ----------

  function LayersOf(m: Json): seq<Json> {
    if Field(m, "layers").List? then Field(m, "layers").items else []
  }

  /** The descriptors a manifest holds. */
  function Held(m: Json): seq<Json> {
    [Field(m, "config")] + LayersOf(m) + if Has(m, "subject") then [Field(m, "subject")] else []
  }

  function Digests(vs: seq<Json>): set<string> {
    set v | v in vs :: DigestOf(v)
  }

  const IMAGE_KEYS: set<string> := {"schemaVersion", "mediaType", "config", "layers"}
  const ATTESTATION_KEYS: set<string> :=
    {"schemaVersion", "mediaType", "config", "layers", "artifactType", "subject"}

  predicate HasKeys(v: Json, keys: set<string>) {
    v.Obj? && v.fields.Keys == keys
  }

  predicate ManifestShape(m: Json, attestation: bool) {
    && HasKeys(m, if attestation then ATTESTATION_KEYS else IMAGE_KEYS)
    && Field(m, "schemaVersion") == Num(2) && Is(m, "mediaType", OCI_MANIFEST)
    && Field(m, "layers").List? && LayersOf(m) != []
  }

  predicate ImageConfigOk(blobs: Blobs, config: Json, platform: string) {
    && DescriptorOk(blobs, config)
    && MediaOf(config) == OCI_CONFIG && HasKeys(config, DESCRIPTOR_FIELDS)
    && var doc := JsonBlob(blobs, DigestOf(config));
       && doc.Some?
       && Is(doc.value, "os", SplitSlash(platform).0) && Is(doc.value, "architecture", SplitSlash(platform).1)
  }

  predicate AttestationConfigOk(blobs: Blobs, config: Json) {
    && DescriptorOk(blobs, config)
    && MediaOf(config) == OCI_EMPTY && HasKeys(config, {"mediaType", "digest", "size", "data"})
    && DigestOf(config) == EMPTY_JSON_DIGEST && Field(config, "size") == Num(2) && Is(config, "data", "e30=")
    && JsonBlob(blobs, DigestOf(config)) == Some(Obj(map[]))
  }

  /** The attestation's subject is the image manifest itself. */
  predicate SubjectOk(blobs: Blobs, subject: Json, image: string) {
    && DescriptorOk(blobs, subject)
    && MediaOf(subject) == OCI_MANIFEST && HasKeys(subject, DESCRIPTOR_FIELDS)
    && DigestOf(subject) == image
  }

  predicate PlainLayer(v: Json) {
    !Has(v, "platform") && !Has(v, "artifactType") && !Has(v, "data")
  }

  predicate ImageLayerOk(blobs: Blobs, v: Json) {
    DescriptorOk(blobs, v) && PlainLayer(v) && MediaOf(v) == OCI_LAYER_GZIP && !Has(v, "annotations")
  }

  function WithoutPrefix(digest: string): string {
    if "sha256:" <= digest then digest[7..] else digest
  }

  predicate StatementSubjectOk(v: Json, image: string) {
    && HasKeys(v, {"name", "digest"})
    && BoundedString(Field(v, "name"), 4096)
    && HasKeys(Field(v, "digest"), {"sha256"}) && Is(Field(v, "digest"), "sha256", WithoutPrefix(image))
  }

  /** An in-toto statement of the given type whose every subject is the image. */
  predicate StatementOk(s: Json, predicateType: string, image: string) {
    && HasKeys(s, {"_type", "predicateType", "subject", "predicate"})
    && Field(s, "_type").Str? && Field(s, "_type").s in STATEMENT_TYPES
    && Is(s, "predicateType", predicateType) && Field(s, "predicate").Obj?
    && Field(s, "subject").List? && Field(s, "subject").items != []
    && forall i :: 0 <= i < |Field(s, "subject").items| ==> StatementSubjectOk(Field(s, "subject").items[i], image)
  }

  function PredicateOf(layer: Json): Json {
    Field(Field(layer, "annotations"), "in-toto.io/predicate-type")
  }

  predicate AttestationLayerOk(blobs: Blobs, v: Json, image: string) {
    && DescriptorOk(blobs, v) && PlainLayer(v) && MediaOf(v) == IN_TOTO
    && HasKeys(Field(v, "annotations"), {"in-toto.io/predicate-type"})
    && PredicateOf(v).Str? && PredicateOf(v).s in ATTESTATION_PREDICATES
    && var s := JsonBlob(blobs, DigestOf(v));
       s.Some? && StatementOk(s.value, PredicateOf(v).s, image)
  }

  predicate LayerOk(blobs: Blobs, v: Json, attested: Option<string>) {
    if attested.Some? then AttestationLayerOk(blobs, v, attested.value) else ImageLayerOk(blobs, v)
  }

  /** Each predicate type once, and no configured one missing. */
  ghost predicate PredicatesComplete(layers: seq<Json>) {
    && (forall i, j :: 0 <= i < j < |layers| ==> PredicateOf(layers[i]) != PredicateOf(layers[j]))
    && (forall p :: p in ATTESTATION_PREDICATES ==> exists i :: 0 <= i < |layers| && PredicateOf(layers[i]) == Str(p))
  }

  ghost predicate LayersOk(blobs: Blobs, layers: seq<Json>, attested: Option<string>) {
    && (forall i :: 0 <= i < |layers| ==> LayerOk(blobs, layers[i], attested))
    && (attested.Some? ==> PredicatesComplete(layers))
  }

  ghost predicate ImageOk(blobs: Blobs, digest: string, platform: string) {
    var m := JsonBlob(blobs, digest);
    && m.Some? && ManifestShape(m.value, false)
    && ImageConfigOk(blobs, Field(m.value, "config"), platform)
    && LayersOk(blobs, LayersOf(m.value), None)
  }

  ghost predicate AttestationOk(blobs: Blobs, digest: string, image: string) {
    var m := JsonBlob(blobs, digest);
    && m.Some? && ManifestShape(m.value, true) && Is(m.value, "artifactType", ATTESTATION_ARTIFACT)
    && AttestationConfigOk(blobs, Field(m.value, "config"))
    && SubjectOk(blobs, Field(m.value, "subject"), image)
    && LayersOk(blobs, LayersOf(m.value), Some(image))
  }

  function Document(blobs: Blobs, digest: string): Json {
    JsonBlob(blobs, digest).GetOr(Null)
  }

  // ---------- The release index ----------

  predicate EntryShape(blobs: Blobs, v: Json) {
    && DescriptorOk(blobs, v) && MediaOf(v) == OCI_MANIFEST && !Has(v, "artifactType") && !Has(v, "data")
    && PlatformOf(Field(v, "platform")).Some?
  }

  function PlatformName(v: Json): string {
    PlatformOf(Field(v, "platform")).GetOr("")
  }

  /** An image of a release platform: nothing annotated. */
  predicate IsImage(v: Json) {
    PlatformName(v) in PLATFORMS && !Has(v, "annotations")
  }

  /** The image an attestation entry refers to. */
  function ReferenceOf(v: Json): string {
    var r := Field(Field(v, "annotations"), "vnd.docker.reference.digest");
    if r.Str? then r.s else ""
  }

  predicate IsAttestation(v: Json) {
    && PlatformName(v) !in PLATFORMS && PlatformName(v) == UNKNOWN_PLATFORM
    && HasKeys(Field(v, "annotations"), {"vnd.docker.reference.digest", "vnd.docker.reference.type"})
    && Is(Field(v, "annotations"), "vnd.docker.reference.type", ATTESTATION_TYPE)
    && Field(Field(v, "annotations"), "vnd.docker.reference.digest").Str? && IsDigest(ReferenceOf(v))
  }

  predicate EntryOk(blobs: Blobs, v: Json) {
    EntryShape(blobs, v) && (IsImage(v) || IsAttestation(v))
  }

  /** Two entries do not claim the same platform, the same image or the same attestation. */
  predicate Apart(v: Json, w: Json) {
    && (IsImage(v) && IsImage(w) ==> PlatformName(v) != PlatformName(w))
    && (IsAttestation(v) && IsAttestation(w) ==> ReferenceOf(v) != ReferenceOf(w) && DigestOf(v) != DigestOf(w))
  }

  ghost predicate EntriesOk(blobs: Blobs, es: seq<Json>) {
    && (forall i :: 0 <= i < |es| ==> EntryOk(blobs, es[i]))
    && (forall i, j :: 0 <= i < j < |es| ==> Apart(es[i], es[j]))
  }

  ghost predicate ImageAt(es: seq<Json>, platform: string, digest: string) {
    exists i :: 0 <= i < |es| && IsImage(es[i]) && PlatformName(es[i]) == platform && DigestOf(es[i]) == digest
  }

  ghost predicate AttestationAt(es: seq<Json>, image: string, digest: string) {
    exists i :: 0 <= i < |es| && IsAttestation(es[i]) && ReferenceOf(es[i]) == image && DigestOf(es[i]) == digest
  }
}
