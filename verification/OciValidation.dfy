/** The validator at work: it records every blob a descriptor names while it walks the layout, and
    accepts only if no blob is left over (scripts/validate_release_oci.py, Layout, _manifest and
    validate_layout). */
module OciValidation {
  import opened Common
  import opened OciLayout

  const MAX_REPOSITORY: nat := 512

  predicate RepositoryOk(repository: string) {
    0 < |repository| <= MAX_REPOSITORY
  }

  /** What acceptance demands of the root index and the release index it names. */
  ghost predicate IndexesOk(blobs: Blobs, rootIndex: Json, expected: string) {
    && IsDigest(expected)
    && IndexOk(rootIndex) && |ManifestsOf(rootIndex)| == 1
    && RootEntryOk(blobs, ManifestsOf(rootIndex)[0], expected)
    && JsonBlob(blobs, expected).Some? && IndexOk(Document(blobs, expected))
    && |ManifestsOf(Document(blobs, expected))| == 4
  }

  predicate RootEntryOk(blobs: Blobs, v: Json, expected: string) {
    && DescriptorOk(blobs, v) && MediaOf(v) == OCI_INDEX && DigestOf(v) == expected
    && PlainLayer(v)
  }

  function Entries(blobs: Blobs, expected: string): seq<Json> {
    ManifestsOf(Document(blobs, expected))
  }

  ghost predicate Cover(es: seq<Json>, platforms: set<string>) {
    forall p :: p in platforms ==> exists i :: 0 <= i < |es| && IsImage(es[i]) && PlatformName(es[i]) == p
  }

  ghost predicate ReferencesResolve(es: seq<Json>) {
    forall i :: 0 <= i < |es| && IsAttestation(es[i]) ==>
      exists j :: 0 <= j < |es| && IsImage(es[j]) && DigestOf(es[j]) == ReferenceOf(es[i])
  }

  ghost predicate ImagesAttested(es: seq<Json>) {
    forall i :: 0 <= i < |es| && IsImage(es[i]) ==>
      exists j :: 0 <= j < |es| && IsAttestation(es[j]) && ReferenceOf(es[j]) == DigestOf(es[i])
  }

  /** Both platforms are there and the references name exactly the images. */
  ghost predicate Paired(es: seq<Json>) {
    Cover(es, PLATFORMS) && ReferencesResolve(es) && ImagesAttested(es)
  }

  ghost predicate ManifestOk(blobs: Blobs, v: Json) {
    if IsImage(v) then ImageOk(blobs, DigestOf(v), PlatformName(v))
    else AttestationOk(blobs, DigestOf(v), ReferenceOf(v))
  }

  ghost predicate ManifestsOk(blobs: Blobs, es: seq<Json>) {
    forall i :: 0 <= i < |es| ==> ManifestOk(blobs, es[i])
  }

  /** The blobs named by descriptors inside the manifest with this digest. */
  function HeldBy(blobs: Blobs, digest: string): set<string> {
    Digests(Held(Document(blobs, digest)))
  }

  /** The blobs named inside the manifests of the entries. */
  function HeldByEntries(blobs: Blobs, es: seq<Json>): set<string> {
    set v, d | v in es && d in HeldBy(blobs, DigestOf(v)) :: d
  }

  /** Every blob is named by a descriptor. */
  ghost predicate NothingLeftOver(blobs: Blobs, expected: string) {
    blobs.Keys <= {expected} + Digests(Entries(blobs, expected)) + HeldByEntries(blobs, Entries(blobs, expected))
  }

  ghost predicate Acceptable(blobs: Blobs, rootIndex: Json, expected: string) {
    && IndexesOk(blobs, rootIndex, expected)
    && EntriesOk(blobs, Entries(blobs, expected)) && Paired(Entries(blobs, expected))
    && ManifestsOk(blobs, Entries(blobs, expected))
    && NothingLeftOver(blobs, expected)
  }

  datatype Release = Release(images: map<string, string>, attestations: map<string, string>)

  /** The images and attestations found are those of the entries. */
  ghost predicate Lists(r: Release, es: seq<Json>) {
    && (forall p :: p in r.images ==> ImageAt(es, p, r.images[p]))
    && (forall i :: 0 <= i < |es| && IsImage(es[i]) ==>
          PlatformName(es[i]) in r.images && r.images[PlatformName(es[i])] == DigestOf(es[i]))
    && (forall d :: d in r.attestations ==> AttestationAt(es, d, r.attestations[d]))
    && (forall i :: 0 <= i < |es| && IsAttestation(es[i]) ==>
          ReferenceOf(es[i]) in r.attestations && r.attestations[ReferenceOf(es[i])] == DigestOf(es[i]))
  }

  // ---------- Reading the entries ----------

  lemma DigestsStep(vs: seq<Json>, i: nat)
    requires i < |vs|
    ensures Digests(vs[..i + 1]) == Digests(vs[..i]) + {DigestOf(vs[i])}
  {
    assert vs[..i + 1] == vs[..i] + [vs[i]];
  }

  lemma EntriesStep(blobs: Blobs, es: seq<Json>, i: nat)
    requires i < |es|
    ensures EntriesOk(blobs, es[..i + 1]) <==>
      EntriesOk(blobs, es[..i]) && EntryOk(blobs, es[i]) && forall k :: 0 <= k < i ==> Apart(es[k], es[i])
  {
    hide EntryOk, Apart;
    var before, after := es[..i], es[..i + 1];
    assert forall k :: 0 <= k < i ==> before[k] == es[k] == after[k];
    assert after[i] == es[i];
    if EntriesOk(blobs, after) {
      assert EntryOk(blobs, after[i]);
      assert forall k :: 0 <= k < i ==> Apart(after[k], after[i]);
      assert forall k :: 0 <= k < i ==> EntryOk(blobs, after[k]);
    }
  }

  lemma EntriesPrefix(blobs: Blobs, es: seq<Json>, i: nat)
    requires i <= |es| && EntriesOk(blobs, es)
    ensures EntriesOk(blobs, es[..i])
  {
  }

  /** The entry is in order and claims nothing that is already taken. */
  predicate Fits(blobs: Blobs, r: Release, taken: set<string>, v: Json) {
    && EntryOk(blobs, v)
    && (IsImage(v) ==> PlatformName(v) !in r.images)
    && (IsAttestation(v) ==> ReferenceOf(v) !in r.attestations && DigestOf(v) !in taken)
  }

  function WithEntry(r: Release, v: Json): Release {
    if IsImage(v) then r.(images := r.images[PlatformName(v) := DigestOf(v)])
    else r.(attestations := r.attestations[ReferenceOf(v) := DigestOf(v)])
  }

  ghost predicate Takes(taken: set<string>, es: seq<Json>) {
    forall d :: d in taken <==> exists k :: 0 <= k < |es| && IsAttestation(es[k]) && DigestOf(es[k]) == d
  }

  lemma NotBoth(v: Json)
    ensures !(IsImage(v) && IsAttestation(v))
  {
  }

  lemma EmptyLists(blobs: Blobs)
    ensures EntriesOk(blobs, []) && Lists(Release(map[], map[]), []) && Takes({}, []) && Digests([]) == {}
  {
  }

  lemma FitsIff(blobs: Blobs, es: seq<Json>, i: nat, r: Release, taken: set<string>)
    requires i < |es| && EntriesOk(blobs, es[..i]) && Lists(r, es[..i]) && Takes(taken, es[..i])
    ensures Fits(blobs, r, taken, es[i]) <==> EntriesOk(blobs, es[..i + 1])
  {
    hide EntryOk, EntriesOk, IsImage, IsAttestation, PlatformName, ReferenceOf, DigestOf;
    var v, before := es[i], es[..i];
    EntriesStep(blobs, es, i);
    assert forall k :: 0 <= k < i ==> before[k] == es[k];
    if Fits(blobs, r, taken, v) {
      forall k | 0 <= k < i
        ensures Apart(es[k], v)
      {
        assert IsAttestation(before[k]) ==> DigestOf(before[k]) in taken;
      }
    } else if EntryOk(blobs, v) {
      if IsImage(v) && PlatformName(v) in r.images {
        var k :| 0 <= k < i && IsImage(before[k]) && PlatformName(before[k]) == PlatformName(v);
        assert !Apart(es[k], v);
      } else if ReferenceOf(v) in r.attestations {
        var k :| 0 <= k < i && IsAttestation(before[k]) && ReferenceOf(before[k]) == ReferenceOf(v);
        assert !Apart(es[k], v);
      } else {
        var k :| 0 <= k < i && IsAttestation(before[k]) && DigestOf(before[k]) == DigestOf(v);
        assert !Apart(es[k], v);
      }
    }
  }

  lemma ListsStep(blobs: Blobs, es: seq<Json>, i: nat, r: Release, taken: set<string>)
    requires i < |es| && Lists(r, es[..i]) && Takes(taken, es[..i]) && Fits(blobs, r, taken, es[i])
    ensures Lists(WithEntry(r, es[i]), es[..i + 1])
    ensures Takes(if IsImage(es[i]) then taken else taken + {DigestOf(es[i])}, es[..i + 1])
  {
    hide EntryShape, IsImage, IsAttestation, PlatformName, ReferenceOf, DigestOf;
    var v, before, after := es[i], es[..i], es[..i + 1];
    NotBoth(v);
    assert forall k :: 0 <= k < i ==> before[k] == after[k];
    assert after[i] == v && |after| == i + 1;
    ListsImages(before, after, r, v);
    ListsAttestations(before, after, r, taken, v);
  }

  lemma ListsImages(before: seq<Json>, after: seq<Json>, r: Release, v: Json)
    requires Lists(r, before) && after == before + [v] && (IsImage(v) ==> PlatformName(v) !in r.images)
    ensures var images := if IsImage(v) then r.images[PlatformName(v) := DigestOf(v)] else r.images;
            && (forall p :: p in images ==> ImageAt(after, p, images[p]))
            && (forall i :: 0 <= i < |after| && IsImage(after[i]) ==>
                  PlatformName(after[i]) in images && images[PlatformName(after[i])] == DigestOf(after[i]))
  {
    hide IsImage, IsAttestation, PlatformName, ReferenceOf, DigestOf;
    var images := if IsImage(v) then r.images[PlatformName(v) := DigestOf(v)] else r.images;
    forall p | p in images
      ensures ImageAt(after, p, images[p])
    {
      if p in r.images {
        var k :| 0 <= k < |before| && IsImage(before[k]) && PlatformName(before[k]) == p && DigestOf(before[k]) == r.images[p];
        assert after[k] == before[k];
      } else {
        assert after[|before|] == v;
      }
    }
    forall i | 0 <= i < |after| && IsImage(after[i])
      ensures PlatformName(after[i]) in images && images[PlatformName(after[i])] == DigestOf(after[i])
    {
      if i < |before| {
        assert after[i] == before[i];
      }
    }
  }

  lemma ListsAttestations(before: seq<Json>, after: seq<Json>, r: Release, taken: set<string>, v: Json)
    requires Lists(r, before) && Takes(taken, before) && after == before + [v]
    requires IsAttestation(v) ==> ReferenceOf(v) !in r.attestations
    ensures var as' := if IsAttestation(v) then r.attestations[ReferenceOf(v) := DigestOf(v)] else r.attestations;
            && (forall d :: d in as' ==> AttestationAt(after, d, as'[d]))
            && (forall i :: 0 <= i < |after| && IsAttestation(after[i]) ==>
                  ReferenceOf(after[i]) in as' && as'[ReferenceOf(after[i])] == DigestOf(after[i]))
    ensures Takes(if IsAttestation(v) then taken + {DigestOf(v)} else taken, after)
  {
    hide IsImage, IsAttestation, PlatformName, ReferenceOf, DigestOf;
    var as' := if IsAttestation(v) then r.attestations[ReferenceOf(v) := DigestOf(v)] else r.attestations;
    forall d | d in as'
      ensures AttestationAt(after, d, as'[d])
    {
      if d in r.attestations {
        var k :| 0 <= k < |before| && IsAttestation(before[k]) && ReferenceOf(before[k]) == d && DigestOf(before[k]) == r.attestations[d];
        assert after[k] == before[k];
      } else {
        assert after[|before|] == v;
      }
    }
    forall i | 0 <= i < |after| && IsAttestation(after[i])
      ensures ReferenceOf(after[i]) in as' && as'[ReferenceOf(after[i])] == DigestOf(after[i])
    {
      if i < |before| {
        assert after[i] == before[i];
      }
    }
    var taken' := if IsAttestation(v) then taken + {DigestOf(v)} else taken;
    forall d
      ensures d in taken' <==> exists k :: 0 <= k < |after| && IsAttestation(after[k]) && DigestOf(after[k]) == d
    {
      if d in taken {
        var k :| 0 <= k < |before| && IsAttestation(before[k]) && DigestOf(before[k]) == d;
        assert after[k] == before[k];
      } else if d in taken' {
        assert after[|before|] == v;
      } else {
        assert forall k :: 0 <= k < |before| ==> after[k] == before[k];
      }
    }
  }

  // ---------- Manifests ----------

  lemma LayerParts(blobs: Blobs, v: Json, attested: Option<string>)
    ensures LayerOk(blobs, v, attested) ==> DescriptorOk(blobs, v)
    ensures LayerOk(blobs, v, attested) && attested.Some? ==>
      PredicateOf(v).Str? && PredicateOf(v).s in ATTESTATION_PREDICATES
  {
  }

  lemma CompleteIff(layers: seq<Json>, predicates: set<string>)
    requires forall i, j :: 0 <= i < j < |layers| ==> PredicateOf(layers[i]) != PredicateOf(layers[j])
    requires forall p :: p in predicates <==> exists k :: 0 <= k < |layers| && PredicateOf(layers[k]) == Str(p)
    requires predicates <= ATTESTATION_PREDICATES
    ensures predicates == ATTESTATION_PREDICATES <==> PredicatesComplete(layers)
  {
    hide PredicateOf;
    if PredicatesComplete(layers) {
      assert forall p :: p in ATTESTATION_PREDICATES ==> p in predicates;
    }
  }

  lemma ImageHolds(m: Json)
    requires ManifestShape(m, false)
    ensures Digests(Held(m)) == {DigestOf(Field(m, "config"))} + Digests(LayersOf(m))
  {
    assert "subject" !in IMAGE_KEYS by {
      assert |"subject"| == 7 && |"schemaVersion"| == 13 && |"mediaType"| == 9 && |"config"| == 6 && |"layers"| == 6;
    }
  }

  lemma AttestationHolds(m: Json)
    requires ManifestShape(m, true)
    ensures Digests(Held(m)) == {DigestOf(Field(m, "config"))} + {DigestOf(Field(m, "subject"))} + Digests(LayersOf(m))
  {
    assert Has(m, "subject");
  }

  // ---------- Pairing ----------

  predicate SetsMatch(r: Release) {
    && r.images.Keys == PLATFORMS
    && r.attestations.Keys == ImageDigests(r)
  }

  lemma SetsMatchIff(r: Release, es: seq<Json>)
    requires Lists(r, es)
    ensures SetsMatch(r) <==> Paired(es)
  {
    hide Lists, IsImage, IsAttestation, PlatformName, ReferenceOf, DigestOf;
    PlatformsOfImages(es);
    ImagesCoverIff(r, es, PLATFORMS);
    ReferencesMatchIff(r, es);
  }

  lemma PlatformsOfImages(es: seq<Json>)
    ensures forall i :: 0 <= i < |es| && IsImage(es[i]) ==> PlatformName(es[i]) in PLATFORMS
  {
    hide PlatformName, Has;
  }

  lemma ImagesCoverIff(r: Release, es: seq<Json>, platforms: set<string>)
    requires Lists(r, es)
    requires forall i :: 0 <= i < |es| && IsImage(es[i]) ==> PlatformName(es[i]) in platforms
    ensures r.images.Keys == platforms <==> Cover(es, platforms)
  {
    hide IsImage, IsAttestation, PlatformName, ReferenceOf, DigestOf;
    if r.images.Keys == platforms {
      forall p | p in platforms
        ensures exists i :: 0 <= i < |es| && IsImage(es[i]) && PlatformName(es[i]) == p
      {
        assert ImageAt(es, p, r.images[p]);
      }
    }
    if Cover(es, platforms) {
      forall p
        ensures p in r.images.Keys <==> p in platforms
      {
        if p in r.images {
          assert ImageAt(es, p, r.images[p]);
        }
      }
    }
  }

  function ImageDigests(r: Release): set<string> {
    set p | p in r.images :: r.images[p]
  }

  lemma ReferencesMatchIff(r: Release, es: seq<Json>)
    requires Lists(r, es)
    ensures r.attestations.Keys == ImageDigests(r) <==> ReferencesResolve(es) && ImagesAttested(es)
  {
    hide Lists, IsImage, IsAttestation, PlatformName, ReferenceOf, DigestOf;
    ResolveIff(r, es);
    AttestedIff(r, es);
  }

  lemma ResolveIff(r: Release, es: seq<Json>)
    requires Lists(r, es)
    ensures r.attestations.Keys <= ImageDigests(r) <==> ReferencesResolve(es)
  {
    hide IsImage, IsAttestation, PlatformName, ReferenceOf, DigestOf;
    if r.attestations.Keys <= ImageDigests(r) {
      forall i | 0 <= i < |es| && IsAttestation(es[i])
        ensures exists j :: 0 <= j < |es| && IsImage(es[j]) && DigestOf(es[j]) == ReferenceOf(es[i])
      {
        assert ReferenceOf(es[i]) in r.attestations.Keys;
        var p :| p in r.images && r.images[p] == ReferenceOf(es[i]);
        assert ImageAt(es, p, r.images[p]);
      }
    }
    if ReferencesResolve(es) {
      forall d | d in r.attestations.Keys
        ensures d in ImageDigests(r)
      {
        assert AttestationAt(es, d, r.attestations[d]);
        var i :| 0 <= i < |es| && IsAttestation(es[i]) && ReferenceOf(es[i]) == d;
        var j :| 0 <= j < |es| && IsImage(es[j]) && DigestOf(es[j]) == ReferenceOf(es[i]);
        assert r.images[PlatformName(es[j])] == d;
      }
    }
  }

  lemma AttestedIff(r: Release, es: seq<Json>)
    requires Lists(r, es)
    ensures ImageDigests(r) <= r.attestations.Keys <==> ImagesAttested(es)
  {
    hide IsImage, IsAttestation, PlatformName, ReferenceOf, DigestOf;
    if ImageDigests(r) <= r.attestations.Keys {
      forall i | 0 <= i < |es| && IsImage(es[i])
        ensures exists j :: 0 <= j < |es| && IsAttestation(es[j]) && ReferenceOf(es[j]) == DigestOf(es[i])
      {
        var d := r.images[PlatformName(es[i])];
        assert d in ImageDigests(r);
        assert AttestationAt(es, d, r.attestations[d]);
      }
    }
    if ImagesAttested(es) {
      forall d | d in ImageDigests(r)
        ensures d in r.attestations.Keys
      {
        var p :| p in r.images && r.images[p] == d;
        assert ImageAt(es, p, d);
        var j :| 0 <= j < |es| && IsImage(es[j]) && DigestOf(es[j]) == d;
        var i :| 0 <= i < |es| && IsAttestation(es[i]) && ReferenceOf(es[i]) == DigestOf(es[j]);
        assert ReferenceOf(es[i]) in r.attestations;
      }
    }
  }

  /** Image and attestation of one platform. */
  ghost predicate PlatformOk(blobs: Blobs, r: Release, p: string)
    requires p in r.images && r.images[p] in r.attestations
  {
    ImageOk(blobs, r.images[p], p) && AttestationOk(blobs, r.attestations[r.images[p]], r.images[p])
  }

  function HeldByPlatform(blobs: Blobs, r: Release, p: string): set<string>
    requires p in r.images && r.images[p] in r.attestations
  {
    HeldBy(blobs, r.images[p]) + HeldBy(blobs, r.attestations[r.images[p]])
  }

  lemma EntryIsPlatforms(blobs: Blobs, r: Release, es: seq<Json>, i: nat) returns (p: string)
    requires Lists(r, es) && SetsMatch(r) && EntriesOk(blobs, es) && i < |es|
    ensures p in r.images && r.images[p] in r.attestations.Keys
    ensures IsImage(es[i]) ==> p == PlatformName(es[i]) && DigestOf(es[i]) == r.images[p]
    ensures !IsImage(es[i]) ==> IsAttestation(es[i]) && ReferenceOf(es[i]) == r.images[p] && DigestOf(es[i]) == r.attestations[r.images[p]]
  {
    hide IsImage, IsAttestation, PlatformName, ReferenceOf, DigestOf, EntryShape, Apart;
    assert EntryOk(blobs, es[i]);
    if IsImage(es[i]) {
      p := PlatformName(es[i]);
    } else {
      assert ReferenceOf(es[i]) in r.attestations.Keys;
      p :| p in r.images && r.images[p] == ReferenceOf(es[i]);
    }
  }

  lemma PlatformsAreEntries(r: Release, es: seq<Json>, p: string) returns (i: nat, j: nat)
    requires Lists(r, es) && SetsMatch(r) && p in r.images
    ensures r.images[p] in r.attestations.Keys
    ensures i < |es| && IsImage(es[i]) && PlatformName(es[i]) == p && DigestOf(es[i]) == r.images[p]
    ensures j < |es| && IsAttestation(es[j]) && ReferenceOf(es[j]) == r.images[p]
    ensures DigestOf(es[j]) == r.attestations[r.images[p]]
  {
    hide IsImage, IsAttestation, PlatformName, ReferenceOf, DigestOf;
    assert ImageAt(es, p, r.images[p]);
    i :| 0 <= i < |es| && IsImage(es[i]) && PlatformName(es[i]) == p && DigestOf(es[i]) == r.images[p];
    var d := r.images[p];
    assert d in r.attestations.Keys;
    assert AttestationAt(es, d, r.attestations[d]);
    j :| 0 <= j < |es| && IsAttestation(es[j]) && ReferenceOf(es[j]) == d && DigestOf(es[j]) == r.attestations[d];
  }

  lemma ManifestsOkIff(blobs: Blobs, r: Release, es: seq<Json>)
    requires Lists(r, es) && SetsMatch(r) && EntriesOk(blobs, es)
    ensures forall p :: p in r.images ==> r.images[p] in r.attestations.Keys
    ensures ManifestsOk(blobs, es) <==> forall p :: p in r.images ==> PlatformOk(blobs, r, p)
  {
    hide IsImage, IsAttestation, PlatformName, ReferenceOf, DigestOf, ImageOk, AttestationOk, Lists, EntriesOk;
    forall p | p in r.images
      ensures r.images[p] in r.attestations.Keys
      ensures ManifestsOk(blobs, es) ==> PlatformOk(blobs, r, p)
    {
      var i, j := PlatformsAreEntries(r, es, p);
      NotBoth(es[j]);
      if ManifestsOk(blobs, es) {
        assert ManifestOk(blobs, es[i]) && ManifestOk(blobs, es[j]);
      }
    }
    if forall p :: p in r.images ==> PlatformOk(blobs, r, p) {
      forall i | 0 <= i < |es|
        ensures ManifestOk(blobs, es[i])
      {
        var p := EntryIsPlatforms(blobs, r, es, i);
        assert PlatformOk(blobs, r, p);
      }
    }
  }

  lemma HeldByPlatforms(blobs: Blobs, r: Release, es: seq<Json>, held: set<string>)
    requires Lists(r, es) && SetsMatch(r) && EntriesOk(blobs, es)
    requires forall p :: p in r.images ==> r.images[p] in r.attestations.Keys
    requires forall d :: d in held <==> exists p :: p in r.images && d in HeldByPlatform(blobs, r, p)
    ensures held == HeldByEntries(blobs, es)
  {
    hide IsImage, IsAttestation, PlatformName, ReferenceOf, DigestOf, HeldBy, Lists, EntriesOk;
    forall d
      ensures d in held <==> d in HeldByEntries(blobs, es)
    {
      if d in held {
        var p :| p in r.images && d in HeldByPlatform(blobs, r, p);
        var i, j := PlatformsAreEntries(r, es, p);
        assert es[i] in es && es[j] in es;
      }
      if d in HeldByEntries(blobs, es) {
        var v :| v in es && d in HeldBy(blobs, DigestOf(v));
        var i :| 0 <= i < |es| && es[i] == v;
        var p := EntryIsPlatforms(blobs, r, es, i);
        assert d in HeldByPlatform(blobs, r, p);
      }
    }
  }

  class Layout {
    const blobs: Blobs
    var referenced: set<string>

    constructor (blobs: Blobs)
      ensures this.blobs == blobs && referenced == {}
    {
      this.blobs := blobs;
      referenced := {};
    }

    /** Accepts a descriptor of a blob of the store, and records the blob. */
    method Descriptor(v: Json) returns (ok: bool)
      modifies this`referenced
      ensures ok <==> DescriptorOk(blobs, v)
      ensures referenced == old(referenced) + if ok then {DigestOf(v)} else {}
    {
      if !DescriptorShape(v) {
        return false;
      }
      var digest := DigestOf(v);
      if digest !in blobs || Field(v, "size") != Num(blobs[digest].size) {
        return false;
      }
      referenced := referenced + {digest};
      return true;
    }

    method Layers(layers: seq<Json>, attested: Option<string>) returns (ok: bool)
      modifies this`referenced
      ensures ok <==> LayersOk(blobs, layers, attested)
      ensures ok ==> referenced == old(referenced) + Digests(layers)
    {
      hide DescriptorOk, LayerOk, DigestOf, Digests, PredicateOf;
      assert layers[..0] == [] && Digests(layers[..0]) == {} by {
        EmptyLists(blobs);
      }
      var predicates: set<string> := {};
      for i := 0 to |layers|
        invariant forall k :: 0 <= k < i ==> LayerOk(blobs, layers[k], attested)
        invariant attested.Some? ==> forall k :: 0 <= k < i ==> PredicateOf(layers[k]).Str?
        invariant attested.Some? ==>
            forall k, j :: 0 <= k < j < i ==> PredicateOf(layers[k]) != PredicateOf(layers[j])
        invariant attested.Some? ==>
            forall p :: p in predicates <==> exists k :: 0 <= k < i && PredicateOf(layers[k]) == Str(p)
        invariant attested.Some? ==> predicates <= ATTESTATION_PREDICATES
        invariant referenced == old(referenced) + Digests(layers[..i])
      {
        var layer := layers[i];
        DigestsStep(layers, i);
        var ok := Descriptor(layer);
        LayerParts(blobs, layer, attested);
        if !ok {
          return false;
        }
        if !LayerOk(blobs, layer, attested) {
          return false;
        }
        if attested.Some? {
          var p := PredicateOf(layer).s;
          if p in predicates {
            assert !PredicatesComplete(layers);
            return false;
          }
          predicates := predicates + {p};
        }
      }
      assert layers[..|layers|] == layers;
      if attested.Some? {
        CompleteIff(layers, predicates);
        return predicates == ATTESTATION_PREDICATES;
      }
      return true;
    }

    method ImageManifest(digest: string, platform: string) returns (ok: bool)
      modifies this`referenced
      ensures ok <==> ImageOk(blobs, digest, platform)
      ensures ok ==> referenced == old(referenced) + HeldBy(blobs, digest)
    {
      hide DescriptorOk, LayersOk, ManifestShape, Held, JsonBlob, SplitSlash, Digests;
      var document := JsonBlob(blobs, digest);
      if document.None? || !ManifestShape(document.value, false) {
        return false;
      }
      var m := document.value;
      ok := Descriptor(Field(m, "config"));
      if !ok || !ImageConfigOk(blobs, Field(m, "config"), platform) {
        return false;
      }
      ok := Layers(LayersOf(m), None);
      ImageHolds(m);
    }

    method AttestationManifest(digest: string, image: string) returns (ok: bool)
      modifies this`referenced
      ensures ok <==> AttestationOk(blobs, digest, image)
      ensures ok ==> referenced == old(referenced) + HeldBy(blobs, digest)
    {
      hide DescriptorOk, LayersOk, ManifestShape, Held, JsonBlob, Digests;
      var document := JsonBlob(blobs, digest);
      if document.None? || !ManifestShape(document.value, true) {
        return false;
      }
      var m := document.value;
      ok := Descriptor(Field(m, "config"));
      if !ok || !Is(m, "artifactType", ATTESTATION_ARTIFACT) || !AttestationConfigOk(blobs, Field(m, "config")) {
        return false;
      }
      ok := Descriptor(Field(m, "subject"));
      if !ok || !SubjectOk(blobs, Field(m, "subject"), image) {
        return false;
      }
      ok := Layers(LayersOf(m), Some(image));
      AttestationHolds(m);
    }

    /** Sorts the release entries into images by platform and attestations by image. */
    method ReadEntries(es: seq<Json>) returns (r: Result<Release>)
      modifies this`referenced
      ensures r.Ok? <==> EntriesOk(blobs, es)
      ensures r.Ok? ==> Lists(r.value, es)
      ensures r.Ok? ==> referenced == old(referenced) + Digests(es)
    {
      hide DescriptorOk, EntriesOk, Lists, Takes, PlatformOf, PlatformName, ReferenceOf, DigestOf, Digests;
      EmptyLists(blobs);
      var found := Release(map[], map[]);
      var taken: set<string> := {};
      assert es[..0] == [];
      for i := 0 to |es|
        invariant EntriesOk(blobs, es[..i]) && Lists(found, es[..i]) && Takes(taken, es[..i])
        invariant referenced == old(referenced) + Digests(es[..i])
      {
        var v := es[i];
        FitsIff(blobs, es, i, found, taken);
        if EntriesOk(blobs, es) {
          EntriesPrefix(blobs, es, i + 1);
        }
        var ok := Descriptor(v);
        if !ok || !EntryShape(blobs, v) {
          return Err;
        }
        if PlatformName(v) in PLATFORMS {
          if Has(v, "annotations") || PlatformName(v) in found.images {
            return Err;
          }
        } else if !IsAttestation(v) || ReferenceOf(v) in found.attestations || DigestOf(v) in taken {
          return Err;
        }
        DigestsStep(es, i);
        ListsStep(blobs, es, i, found, taken);
        if IsImage(v) {
          found := found.(images := found.images[PlatformName(v) := DigestOf(v)]);
        } else {
          found := found.(attestations := found.attestations[ReferenceOf(v) := DigestOf(v)]);
          taken := taken + {DigestOf(v)};
        }
      }
      assert es[..|es|] == es;
      return Ok(found);
    }

    /** Every image manifest and the manifest of its attestation. */
    method Manifests(r: Release, ghost es: seq<Json>) returns (ok: bool)
      requires Lists(r, es) && SetsMatch(r) && EntriesOk(blobs, es)
      modifies this`referenced
      ensures ok <==> ManifestsOk(blobs, es)
      ensures ok ==> referenced == old(referenced) + HeldByEntries(blobs, es)
    {
      hide ImageOk, AttestationOk, ManifestsOk, Lists, EntriesOk, HeldBy, HeldByEntries, SetsMatch;
      ManifestsOkIff(blobs, r, es);
      var todo := r.images.Keys;
      ghost var held: set<string> := {};
      while todo != {}
        invariant todo <= r.images.Keys
        invariant forall p :: p in r.images.Keys - todo ==> PlatformOk(blobs, r, p)
        invariant forall d :: d in held <==> exists p :: p in r.images.Keys - todo && d in HeldByPlatform(blobs, r, p)
        invariant referenced == old(referenced) + held
        decreases |todo|
      {
        var p :| p in todo;
        var image := r.images[p];
        ok := ImageManifest(image, p);
        if !ok {
          return;
        }
        ok := AttestationManifest(r.attestations[image], image);
        if !ok {
          return;
        }
        ghost var before := todo;
        todo := todo - {p};
        assert r.images.Keys - todo == (r.images.Keys - before) + {p};
        held := held + HeldByPlatform(blobs, r, p);
      }
      HeldByPlatforms(blobs, r, es, held);
      ok := true;
    }

    /** No blob of the store is left unnamed. */
    method Close() returns (ok: bool)
      ensures ok <==> blobs.Keys <= referenced
    {
      var orphaned := blobs.Keys - referenced;
      ok := orphaned == {};
      if ok {
        forall d | d in blobs.Keys
          ensures d in referenced
        {
          assert d !in orphaned;
        }
      }
    }

    /** Accepts the layout, and lists its images, exactly when it is acceptable and the repository
        name is not empty and not too long. */
    method Validate(rootIndex: Json, expected: string, repository: string) returns (r: Result<Release>)
      requires referenced == {}
      modifies this`referenced
      ensures r.Ok? <==> 1 <= |repository| <= 512 && Acceptable(blobs, rootIndex, expected)
      ensures r.Ok? ==> Lists(r.value, Entries(blobs, expected))
    {
      hide IndexOk, EntriesOk, ManifestsOk, Lists, Paired, IsDigest, DescriptorOk, Digests, HeldByEntries, MediaOf,
        JsonBlob, ManifestsOf, DigestOf;
      if !RepositoryOk(repository) {
        return Err;
      }
      if !IsDigest(expected) || !IndexOk(rootIndex) || |ManifestsOf(rootIndex)| != 1 {
        return Err;
      }
      var entry := ManifestsOf(rootIndex)[0];
      var ok := Descriptor(entry);
      if !ok || !RootEntryOk(blobs, entry, expected) {
        return Err;
      }
      var index := JsonBlob(blobs, expected);
      if index.None? || !IndexOk(index.value) {
        return Err;
      }
      var es := ManifestsOf(index.value);
      assert es == Entries(blobs, expected);
      if |es| != 4 {
        return Err;
      }
      var found := ReadEntries(es);
      if found.Err? {
        return Err;
      }
      SetsMatchIff(found.value, es);
      if !SetsMatch(found.value) {
        return Err;
      }
      ok := Manifests(found.value, es);
      if !ok {
        return Err;
      }
      ok := Close();
      if !ok {
        return Err;
      }
      return found;
    }
  }
}
