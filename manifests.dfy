/**
 * The JavaScript-facing manifest records and their field-by-field conversions
 * to and from the native OCI manifest types. The Image/ImageIndex sum becomes a
 * record with a discriminator and two optional fields.
 */
module Manifests {
  import opened Wrappers
  import opened Collections
  import Oci

  datatype Descriptor = Descriptor(
    mediaType: string,
    digest: string,
    size: Oci.I64,
    urls: Option<seq<string>>,
    annotations: Option<Oci.Annotations>)

  datatype PlatformSpec = PlatformSpec(
    architecture: string,
    os: string,
    osVersion: Option<string>,
    osFeatures: Option<seq<string>>,
    variant: Option<string>,
    features: Option<seq<string>>)

  datatype ManifestEntry = ManifestEntry(
    mediaType: string,
    digest: string,
    size: Oci.I64,
    platform: Option<PlatformSpec>,
    annotations: Option<Oci.Annotations>)

  datatype ImageIndex = ImageIndex(
    schemaVersion: Oci.U8,
    mediaType: Option<string>,
    manifests: seq<ManifestEntry>,
    artifactType: Option<string>,
    annotations: Option<Oci.Annotations>)

  datatype ImageManifest = ImageManifest(
    schemaVersion: Oci.U8,
    mediaType: Option<string>,
    config: Descriptor,
    layers: seq<Descriptor>,
    subject: Option<Descriptor>,
    artifactType: Option<string>,
    annotations: Option<Oci.Annotations>)

  datatype ManifestType = ImageType | ImageIndexType

  /** Check `manifestType` to know which of `image` and `imageIndex` is meant. */
  datatype Manifest = Manifest(
    manifestType: ManifestType,
    image: Option<ImageManifest>,
    imageIndex: Option<ImageIndex>)

  const IMAGE_REQUIRED := "image field required for Image manifest type"
  const IMAGE_INDEX_REQUIRED := "image_index field required for ImageIndex manifest type"

  // ---------------------------------------------------------------------------
  // Field-by-field conversions
  // ---------------------------------------------------------------------------

  function DescriptorFromNative(d: Oci.OciDescriptor): Descriptor {
    Descriptor(d.mediaType, d.digest, d.size, d.urls, d.annotations)
  }

  function DescriptorToNative(d: Descriptor): Oci.OciDescriptor {
    Oci.OciDescriptor(d.mediaType, d.digest, d.size, d.urls, d.annotations)
  }

  function PlatformFromNative(p: Oci.Platform): PlatformSpec {
    PlatformSpec(p.architecture, p.os, p.osVersion, p.osFeatures, p.variant, p.features)
  }

  function PlatformToNative(p: PlatformSpec): Oci.Platform {
    Oci.Platform(p.architecture, p.os, p.osVersion, p.osFeatures, p.variant, p.features)
  }

  function EntryFromNative(e: Oci.ImageIndexEntry): ManifestEntry {
    ManifestEntry(e.mediaType, e.digest, e.size, MapOption(PlatformFromNative, e.platform), e.annotations)
  }

  function EntryToNative(e: ManifestEntry): Oci.ImageIndexEntry {
    Oci.ImageIndexEntry(e.mediaType, e.digest, e.size, MapOption(PlatformToNative, e.platform), e.annotations)
  }

  function ImageIndexFromNative(idx: Oci.OciImageIndex): ImageIndex {
    ImageIndex(idx.schemaVersion, idx.mediaType, MapSeq(EntryFromNative, idx.manifests),
               idx.artifactType, idx.annotations)
  }

  function ImageIndexToNative(idx: ImageIndex): Oci.OciImageIndex {
    Oci.OciImageIndex(idx.schemaVersion, idx.mediaType, MapSeq(EntryToNative, idx.manifests),
                      idx.artifactType, idx.annotations)
  }

  function ImageManifestFromNative(m: Oci.OciImageManifest): ImageManifest {
    ImageManifest(m.schemaVersion, m.mediaType, DescriptorFromNative(m.config),
                  MapSeq(DescriptorFromNative, m.layers), MapOption(DescriptorFromNative, m.subject),
                  m.artifactType, m.annotations)
  }

  function ImageManifestToNative(m: ImageManifest): Oci.OciImageManifest {
    Oci.OciImageManifest(m.schemaVersion, m.mediaType, DescriptorToNative(m.config),
                         MapSeq(DescriptorToNative, m.layers), MapOption(DescriptorToNative, m.subject),
                         m.artifactType, m.annotations)
  }

  // ---------------------------------------------------------------------------
  // The tagged union
  // ---------------------------------------------------------------------------

  /** `From<OciManifest> for Manifest`: exactly the field named by the discriminator is set. */
  function ManifestFromNative(m: Oci.OciManifest): (r: Manifest)
    ensures r.manifestType == ImageType <==> m.Image?
    ensures r.image.Some? <==> r.manifestType == ImageType
    ensures r.imageIndex.Some? <==> r.manifestType == ImageIndexType
  {
    match m
    case Image(img) => Manifest(ImageType, Some(ImageManifestFromNative(img)), None)
    case ImageIndex(idx) => Manifest(ImageIndexType, None, Some(ImageIndexFromNative(idx)))
  }

  /**
   * `TryFrom<Manifest> for OciManifest`: fails exactly when the field the
   * discriminator selects is absent; the other field is never read.
   */
  function ManifestToNative(m: Manifest): (r: Result<Oci.OciManifest, string>)
    ensures r.Err? <==> ((m.manifestType == ImageType && m.image.None?) ||
                         (m.manifestType == ImageIndexType && m.imageIndex.None?))
    ensures r.Err? ==> r.error == if m.manifestType == ImageType then IMAGE_REQUIRED else IMAGE_INDEX_REQUIRED
    ensures r.Ok? ==> (r.value.Image? <==> m.manifestType == ImageType)
    ensures r.Ok? && r.value.Image? ==>
      m.image.Some? && ImageManifestFromNative(r.value.image) == m.image.value
    ensures r.Ok? && r.value.ImageIndex? ==>
      m.imageIndex.Some? && ImageIndexFromNative(r.value.index) == m.imageIndex.value
  {
    match m.manifestType
    case ImageType =>
      if m.image.None? then Err(IMAGE_REQUIRED)
      else Ok(Oci.Image(ImageManifestToNative(m.image.value)))
    case ImageIndexType =>
      if m.imageIndex.None? then Err(IMAGE_INDEX_REQUIRED)
      else Ok(Oci.ImageIndex(ImageIndexToNative(m.imageIndex.value)))
  }

  // ---------------------------------------------------------------------------
  // Round trips
  // ---------------------------------------------------------------------------

  lemma DescriptorConversionsInverse(n: Oci.OciDescriptor, d: Descriptor)
    ensures DescriptorToNative(DescriptorFromNative(n)) == n
    ensures DescriptorFromNative(DescriptorToNative(d)) == d
  {
  }

  lemma PlatformConversionsInverse(n: Oci.Platform, p: PlatformSpec)
    ensures PlatformToNative(PlatformFromNative(n)) == n
    ensures PlatformFromNative(PlatformToNative(p)) == p
  {
  }

  lemma EntryConversionsInverse(n: Oci.ImageIndexEntry, e: ManifestEntry)
    ensures EntryToNative(EntryFromNative(n)) == n
    ensures EntryFromNative(EntryToNative(e)) == e
  {
  }

  /** The index conversions are mutual inverses; the entry list keeps its length and order. */
  lemma ImageIndexConversionsInverse(n: Oci.OciImageIndex, idx: ImageIndex)
    ensures ImageIndexToNative(ImageIndexFromNative(n)) == n
    ensures ImageIndexFromNative(ImageIndexToNative(idx)) == idx
    ensures |ImageIndexFromNative(n).manifests| == |n.manifests|
    ensures forall i :: 0 <= i < |n.manifests| ==>
      ImageIndexFromNative(n).manifests[i].digest == n.manifests[i].digest
  {
  }

  /** The image manifest conversions are mutual inverses; layers keep their length and order. */
  lemma ImageManifestConversionsInverse(n: Oci.OciImageManifest, m: ImageManifest)
    ensures ImageManifestToNative(ImageManifestFromNative(n)) == n
    ensures ImageManifestFromNative(ImageManifestToNative(m)) == m
    ensures |ImageManifestFromNative(n).layers| == |n.layers|
    ensures forall i :: 0 <= i < |n.layers| ==>
      ImageManifestFromNative(n).layers[i].digest == n.layers[i].digest
  {
  }

  /** A native manifest survives the trip to the JavaScript record and back. */
  lemma {:induction false} ManifestRoundTrip(n: Oci.OciManifest)
    ensures ManifestToNative(ManifestFromNative(n)) == Ok(n)
  {
    match n
    case Image(img) => ImageManifestConversionsInverse(img, ImageManifestFromNative(img));
    case ImageIndex(idx) => ImageIndexConversionsInverse(idx, ImageIndexFromNative(idx));
  }

  /** `m` with the field its discriminator does not select cleared. */
  function Selected(m: Manifest): Manifest {
    match m.manifestType
    case ImageType => m.(imageIndex := None)
    case ImageIndexType => m.(image := None)
  }

  /** The field the discriminator does not select is ignored, even when populated. */
  lemma ManifestToNativeIgnoresOtherField(m: Manifest)
    ensures ManifestToNative(m) == ManifestToNative(Selected(m))
  {
  }

  /**
   * A record that converts comes back from the native manifest as itself, minus
   * the field its discriminator does not select.
   */
  lemma ManifestRecordRoundTrip(m: Manifest)
    requires ManifestToNative(m).Ok?
    ensures ManifestFromNative(ManifestToNative(m).value) == Selected(m)
  {
  }
}
