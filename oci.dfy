/**
 * The native types of the `oci_client` crate that the Node.js binding converts
 * to and from. They are plain records and sums; the crate's behaviour (network,
 * digests, token cache) is not part of this model.
 */
module Oci {
  import opened Wrappers

  /** Rust `u8`, `u32` and `i64`. */
  type U8 = x: int | 0 <= x < 0x100
  type U32 = x: int | 0 <= x < 0x1_0000_0000
  type I64 = x: int | -0x8000_0000_0000_0000 <= x < 0x8000_0000_0000_0000

  /** A byte buffer (`Vec<u8>`, `bytes::Bytes`, the JavaScript `Buffer`). */
  type Bytes = seq<bv8>

  /** A `Duration`, kept as its whole number of milliseconds. */
  type Millis = nat

  /** A `BTreeMap<String, String>` of annotations. */
  type Annotations = map<string, string>

  // ---------------------------------------------------------------------------
  // Credentials
  // ---------------------------------------------------------------------------

  datatype NativeRegistryAuth =
    | Anonymous
    | Basic(username: string, password: string)
    | Bearer(token: string)

  // ---------------------------------------------------------------------------
  // Client configuration
  // ---------------------------------------------------------------------------

  datatype NativeClientProtocol = Http | Https | HttpsExcept(registries: seq<string>)

  datatype NativeCertificateEncoding = Der | Pem

  datatype NativeCertificate = NativeCertificate(encoding: NativeCertificateEncoding, data: Bytes)

  datatype NativeClientConfig = NativeClientConfig(
    protocol: NativeClientProtocol,
    acceptInvalidCertificates: bool,
    useMonolithicPush: bool,
    extraRootCertificates: seq<NativeCertificate>,
    maxConcurrentUpload: nat,
    maxConcurrentDownload: nat,
    defaultTokenExpirationSecs: nat,
    readTimeout: Option<Millis>,
    connectTimeout: Option<Millis>,
    httpsProxy: Option<string>,
    httpProxy: Option<string>,
    noProxy: Option<string>)

  const DEFAULT_MAX_CONCURRENT_UPLOAD: nat := 16
  const DEFAULT_MAX_CONCURRENT_DOWNLOAD: nat := 16
  const DEFAULT_TOKEN_EXPIRATION_SECS: nat := 60

  /** `ClientConfig::default()`: HTTPS, certificates checked, chunked push, no timeouts, no proxies. */
  function DefaultClientConfig(): NativeClientConfig {
    NativeClientConfig(
      protocol := Https,
      acceptInvalidCertificates := false,
      useMonolithicPush := false,
      extraRootCertificates := [],
      maxConcurrentUpload := DEFAULT_MAX_CONCURRENT_UPLOAD,
      maxConcurrentDownload := DEFAULT_MAX_CONCURRENT_DOWNLOAD,
      defaultTokenExpirationSecs := DEFAULT_TOKEN_EXPIRATION_SECS,
      readTimeout := None,
      connectTimeout := None,
      httpsProxy := None,
      httpProxy := None,
      noProxy := None)
  }

  // ---------------------------------------------------------------------------
  // Manifests
  // ---------------------------------------------------------------------------

  datatype OciDescriptor = OciDescriptor(
    mediaType: string,
    digest: string,
    size: I64,
    urls: Option<seq<string>>,
    annotations: Option<Annotations>)

  datatype Platform = Platform(
    architecture: string,
    os: string,
    osVersion: Option<string>,
    osFeatures: Option<seq<string>>,
    variant: Option<string>,
    features: Option<seq<string>>)

  datatype ImageIndexEntry = ImageIndexEntry(
    mediaType: string,
    digest: string,
    size: I64,
    platform: Option<Platform>,
    annotations: Option<Annotations>)

  datatype OciImageIndex = OciImageIndex(
    schemaVersion: U8,
    mediaType: Option<string>,
    manifests: seq<ImageIndexEntry>,
    artifactType: Option<string>,
    annotations: Option<Annotations>)

  datatype OciImageManifest = OciImageManifest(
    schemaVersion: U8,
    mediaType: Option<string>,
    config: OciDescriptor,
    layers: seq<OciDescriptor>,
    subject: Option<OciDescriptor>,
    artifactType: Option<string>,
    annotations: Option<Annotations>)

  /** A manifest is either a single image or an index of per-platform manifests. */
  datatype OciManifest = Image(image: OciImageManifest) | ImageIndex(index: OciImageIndex)

  // ---------------------------------------------------------------------------
  // Pull and push payloads
  // ---------------------------------------------------------------------------

  datatype NativeImageLayer = NativeImageLayer(data: Bytes, mediaType: string, annotations: Option<Annotations>)

  datatype NativeConfig = NativeConfig(data: Bytes, mediaType: string, annotations: Option<Annotations>)

  datatype NativeImageData = NativeImageData(
    layers: seq<NativeImageLayer>,
    digest: Option<string>,
    config: NativeConfig,
    manifest: Option<OciImageManifest>)

  datatype NativePushResponse = NativePushResponse(configUrl: string, manifestUrl: string)
}
