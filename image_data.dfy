/**
 * The payloads of a pull and a push as JavaScript sees them: layers and the
 * config blob with their media types, the assembled pull result, and the URLs
 * a push reports.
 */
module Images {
  import opened Wrappers
  import opened Collections
  import Oci
  import Manifests

  datatype ImageLayer = ImageLayer(data: Oci.Bytes, mediaType: string, annotations: Option<Oci.Annotations>)

  datatype Config = Config(data: Oci.Bytes, mediaType: string, annotations: Option<Oci.Annotations>)

  datatype ImageData = ImageData(
    layers: seq<ImageLayer>,
    digest: Option<string>,
    config: Config,
    manifest: Option<Manifests.ImageManifest>)

  datatype PushResponse = PushResponse(configUrl: string, manifestUrl: string)

  function LayerFromNative(l: Oci.NativeImageLayer): ImageLayer {
    ImageLayer(l.data, l.mediaType, l.annotations)
  }

  function LayerToNative(l: ImageLayer): Oci.NativeImageLayer {
    Oci.NativeImageLayer(l.data, l.mediaType, l.annotations)
  }

  function ConfigFromNative(c: Oci.NativeConfig): Config {
    Config(c.data, c.mediaType, c.annotations)
  }

  function ConfigToNative(c: Config): Oci.NativeConfig {
    Oci.NativeConfig(c.data, c.mediaType, c.annotations)
  }

  /** `ImageData::from_native`. */
  function ImageDataFromNative(d: Oci.NativeImageData): ImageData {
    ImageData(MapSeq(LayerFromNative, d.layers), d.digest, ConfigFromNative(d.config),
              MapOption(Manifests.ImageManifestFromNative, d.manifest))
  }

  /** `From<NativePushResponse> for PushResponse`. */
  function PushResponseFromNative(r: Oci.NativePushResponse): PushResponse {
    PushResponse(r.configUrl, r.manifestUrl)
  }

  /** Distinct push responses stay distinct: neither URL is lost. */
  lemma PushResponseFromNativeInjective(a: Oci.NativePushResponse, b: Oci.NativePushResponse)
    requires PushResponseFromNative(a) == PushResponseFromNative(b)
    ensures a == b
  {
  }

  lemma LayerConversionsInverse(n: Oci.NativeImageLayer, l: ImageLayer)
    ensures LayerToNative(LayerFromNative(n)) == n
    ensures LayerFromNative(LayerToNative(l)) == l
  {
  }

  lemma ConfigConversionsInverse(n: Oci.NativeConfig, c: Config)
    ensures ConfigToNative(ConfigFromNative(n)) == n
    ensures ConfigFromNative(ConfigToNative(c)) == c
  {
  }

  /**
   * A pull result loses nothing on its way to JavaScript: the layers keep their
   * number, order and bytes and convert back to the native layers, and the
   * digest, config and manifest convert back to the native ones.
   */
  lemma {:induction false} ImageDataFromNativeFaithful(d: Oci.NativeImageData)
    ensures |ImageDataFromNative(d).layers| == |d.layers|
    ensures forall i :: 0 <= i < |d.layers| ==>
      ImageDataFromNative(d).layers[i].data == d.layers[i].data &&
      ImageDataFromNative(d).layers[i].mediaType == d.layers[i].mediaType
    ensures MapSeq(LayerToNative, ImageDataFromNative(d).layers) == d.layers
    ensures ImageDataFromNative(d).digest == d.digest
    ensures ConfigToNative(ImageDataFromNative(d).config) == d.config
    ensures MapOption(Manifests.ImageManifestToNative, ImageDataFromNative(d).manifest) == d.manifest
  {
    MapSeqInverse(LayerFromNative, LayerToNative, d.layers);
    if d.manifest.Some? {
      var m := d.manifest.value;
      Manifests.ImageManifestConversionsInverse(m, Manifests.ImageManifestFromNative(m));
    }
    MapOptionInverse(Manifests.ImageManifestFromNative, Manifests.ImageManifestToNative, d.manifest);
  }
}
