/**
 * Client configuration as JavaScript passes it: every option optional. The
 * conversion starts from the native defaults and overrides one field for each
 * option that is present.
 */
module Configs {
  import opened Wrappers
  import Oci
  import Collections

  datatype ClientProtocol = Http | Https | HttpsExcept

  datatype CertificateEncoding = Der | Pem

  datatype Certificate = Certificate(encoding: CertificateEncoding, data: Oci.Bytes)

  datatype ClientConfig = ClientConfig(
    protocol: Option<ClientProtocol>,
    httpsExceptRegistries: Option<seq<string>>,
    acceptInvalidCertificates: Option<bool>,
    useMonolithicPush: Option<bool>,
    extraRootCertificates: Option<seq<Certificate>>,
    maxConcurrentUpload: Option<Oci.U32>,
    maxConcurrentDownload: Option<Oci.U32>,
    defaultTokenExpirationSecs: Option<Oci.U32>,
    readTimeoutMs: Option<Oci.U32>,
    connectTimeoutMs: Option<Oci.U32>,
    httpsProxy: Option<string>,
    httpProxy: Option<string>,
    noProxy: Option<string>)

  /** A configuration with no option set. */
  function NoOverrides(): ClientConfig {
    ClientConfig(None, None, None, None, None, None, None, None, None, None, None, None, None)
  }

  /** `Certificate::to_native`. */
  function CertificateToNative(c: Certificate): Oci.NativeCertificate {
    Oci.NativeCertificate(
      match c.encoding
      case Der => Oci.Der
      case Pem => Oci.Pem,
      c.data)
  }

  /** The native protocol for a chosen protocol; the registry list matters only for HttpsExcept. */
  function ProtocolToNative(p: ClientProtocol, registries: Option<seq<string>>): Oci.NativeClientProtocol {
    match p
    case Http => Oci.Http
    case Https => Oci.Https
    case HttpsExcept => Oci.HttpsExcept(registries.GetOr([]))
  }

  /**
   * The configuration `c` stands for: each native field is the one option that
   * feeds it when present, and the default otherwise.
   */
  function MergedConfig(c: ClientConfig): Oci.NativeClientConfig {
    var d := Oci.DefaultClientConfig();
    Oci.NativeClientConfig(
      protocol :=
        if c.protocol.Some? then ProtocolToNative(c.protocol.value, c.httpsExceptRegistries) else d.protocol,
      acceptInvalidCertificates := c.acceptInvalidCertificates.GetOr(d.acceptInvalidCertificates),
      useMonolithicPush := c.useMonolithicPush.GetOr(d.useMonolithicPush),
      extraRootCertificates :=
        if c.extraRootCertificates.Some? then Collections.MapSeq(CertificateToNative, c.extraRootCertificates.value)
        else d.extraRootCertificates,
      maxConcurrentUpload := c.maxConcurrentUpload.GetOr(d.maxConcurrentUpload),
      maxConcurrentDownload := c.maxConcurrentDownload.GetOr(d.maxConcurrentDownload),
      defaultTokenExpirationSecs := c.defaultTokenExpirationSecs.GetOr(d.defaultTokenExpirationSecs),
      readTimeout := if c.readTimeoutMs.Some? then Some(c.readTimeoutMs.value) else d.readTimeout,
      connectTimeout := if c.connectTimeoutMs.Some? then Some(c.connectTimeoutMs.value) else d.connectTimeout,
      httpsProxy := if c.httpsProxy.Some? then c.httpsProxy else d.httpsProxy,
      httpProxy := if c.httpProxy.Some? then c.httpProxy else d.httpProxy,
      noProxy := if c.noProxy.Some? then c.noProxy else d.noProxy)
  }

  /** `ClientConfig::to_native`: start from the defaults and apply each present option in turn. */
  method ToNative(c: ClientConfig) returns (config: Oci.NativeClientConfig)
    ensures config == MergedConfig(c)
  {
    // After each step, the fields handled so far hold their merged value and
    // the others still hold their default.
    ghost var m, d := MergedConfig(c), Oci.DefaultClientConfig();
    config := Oci.DefaultClientConfig();
    if c.protocol.Some? {
      config := config.(protocol := ProtocolToNative(c.protocol.value, c.httpsExceptRegistries));
    }
    assert config == d.(protocol := m.protocol);
    if c.acceptInvalidCertificates.Some? {
      config := config.(acceptInvalidCertificates := c.acceptInvalidCertificates.value);
    }
    assert config == d.(protocol := m.protocol, acceptInvalidCertificates := m.acceptInvalidCertificates);
    if c.useMonolithicPush.Some? {
      config := config.(useMonolithicPush := c.useMonolithicPush.value);
    }
    assert config == d.(
      protocol := m.protocol,
      acceptInvalidCertificates := m.acceptInvalidCertificates,
      useMonolithicPush := m.useMonolithicPush);
    if c.extraRootCertificates.Some? {
      config := config.(extraRootCertificates := Collections.MapSeq(CertificateToNative, c.extraRootCertificates.value));
    }
    assert config == d.(
      protocol := m.protocol,
      acceptInvalidCertificates := m.acceptInvalidCertificates,
      useMonolithicPush := m.useMonolithicPush,
      extraRootCertificates := m.extraRootCertificates);
    if c.maxConcurrentUpload.Some? {
      config := config.(maxConcurrentUpload := c.maxConcurrentUpload.value);
    }
    assert config == d.(
      protocol := m.protocol,
      acceptInvalidCertificates := m.acceptInvalidCertificates,
      useMonolithicPush := m.useMonolithicPush,
      extraRootCertificates := m.extraRootCertificates,
      maxConcurrentUpload := m.maxConcurrentUpload);
    if c.maxConcurrentDownload.Some? {
      config := config.(maxConcurrentDownload := c.maxConcurrentDownload.value);
    }
    assert config == d.(
      protocol := m.protocol,
      acceptInvalidCertificates := m.acceptInvalidCertificates,
      useMonolithicPush := m.useMonolithicPush,
      extraRootCertificates := m.extraRootCertificates,
      maxConcurrentUpload := m.maxConcurrentUpload,
      maxConcurrentDownload := m.maxConcurrentDownload);
    if c.defaultTokenExpirationSecs.Some? {
      config := config.(defaultTokenExpirationSecs := c.defaultTokenExpirationSecs.value);
    }
    assert config == d.(
      protocol := m.protocol,
      acceptInvalidCertificates := m.acceptInvalidCertificates,
      useMonolithicPush := m.useMonolithicPush,
      extraRootCertificates := m.extraRootCertificates,
      maxConcurrentUpload := m.maxConcurrentUpload,
      maxConcurrentDownload := m.maxConcurrentDownload,
      defaultTokenExpirationSecs := m.defaultTokenExpirationSecs);
    if c.readTimeoutMs.Some? {
      config := config.(readTimeout := Some(c.readTimeoutMs.value));
    }
    assert config == d.(
      protocol := m.protocol,
      acceptInvalidCertificates := m.acceptInvalidCertificates,
      useMonolithicPush := m.useMonolithicPush,
      extraRootCertificates := m.extraRootCertificates,
      maxConcurrentUpload := m.maxConcurrentUpload,
      maxConcurrentDownload := m.maxConcurrentDownload,
      defaultTokenExpirationSecs := m.defaultTokenExpirationSecs,
      readTimeout := m.readTimeout);
    if c.connectTimeoutMs.Some? {
      config := config.(connectTimeout := Some(c.connectTimeoutMs.value));
    }
    assert config == d.(
      protocol := m.protocol,
      acceptInvalidCertificates := m.acceptInvalidCertificates,
      useMonolithicPush := m.useMonolithicPush,
      extraRootCertificates := m.extraRootCertificates,
      maxConcurrentUpload := m.maxConcurrentUpload,
      maxConcurrentDownload := m.maxConcurrentDownload,
      defaultTokenExpirationSecs := m.defaultTokenExpirationSecs,
      readTimeout := m.readTimeout,
      connectTimeout := m.connectTimeout);
    if c.httpsProxy.Some? {
      config := config.(httpsProxy := Some(c.httpsProxy.value));
    }
    assert config == d.(
      protocol := m.protocol,
      acceptInvalidCertificates := m.acceptInvalidCertificates,
      useMonolithicPush := m.useMonolithicPush,
      extraRootCertificates := m.extraRootCertificates,
      maxConcurrentUpload := m.maxConcurrentUpload,
      maxConcurrentDownload := m.maxConcurrentDownload,
      defaultTokenExpirationSecs := m.defaultTokenExpirationSecs,
      readTimeout := m.readTimeout,
      connectTimeout := m.connectTimeout,
      httpsProxy := m.httpsProxy);
    if c.httpProxy.Some? {
      config := config.(httpProxy := Some(c.httpProxy.value));
    }
    assert config == d.(
      protocol := m.protocol,
      acceptInvalidCertificates := m.acceptInvalidCertificates,
      useMonolithicPush := m.useMonolithicPush,
      extraRootCertificates := m.extraRootCertificates,
      maxConcurrentUpload := m.maxConcurrentUpload,
      maxConcurrentDownload := m.maxConcurrentDownload,
      defaultTokenExpirationSecs := m.defaultTokenExpirationSecs,
      readTimeout := m.readTimeout,
      connectTimeout := m.connectTimeout,
      httpsProxy := m.httpsProxy,
      httpProxy := m.httpProxy);
    if c.noProxy.Some? {
      config := config.(noProxy := Some(c.noProxy.value));
    }
  }

  /** Distinct certificates stay distinct: the conversion loses no information. */
  lemma CertificateToNativeInjective(a: Certificate, b: Certificate)
    requires CertificateToNative(a) == CertificateToNative(b)
    ensures a == b
  {
  }

  /** With no option set, the result is exactly the native default configuration. */
  lemma NoOverridesGiveDefault()
    ensures MergedConfig(NoOverrides()) == Oci.DefaultClientConfig()
  {
  }

  /** Setting one option changes only the native field it feeds. */
  lemma OverrideChangesOnlyItsField(
    c: ClientConfig, flag: bool, n: Oci.U32, s: string, certs: seq<Certificate>)
    ensures MergedConfig(c.(acceptInvalidCertificates := Some(flag)))
         == MergedConfig(c).(acceptInvalidCertificates := flag)
    ensures MergedConfig(c.(useMonolithicPush := Some(flag)))
         == MergedConfig(c).(useMonolithicPush := flag)
    ensures MergedConfig(c.(extraRootCertificates := Some(certs)))
         == MergedConfig(c).(extraRootCertificates := Collections.MapSeq(CertificateToNative, certs))
    ensures MergedConfig(c.(maxConcurrentUpload := Some(n)))
         == MergedConfig(c).(maxConcurrentUpload := n)
    ensures MergedConfig(c.(maxConcurrentDownload := Some(n)))
         == MergedConfig(c).(maxConcurrentDownload := n)
    ensures MergedConfig(c.(defaultTokenExpirationSecs := Some(n)))
         == MergedConfig(c).(defaultTokenExpirationSecs := n)
    ensures MergedConfig(c.(readTimeoutMs := Some(n)))
         == MergedConfig(c).(readTimeout := Some(n))
    ensures MergedConfig(c.(connectTimeoutMs := Some(n)))
         == MergedConfig(c).(connectTimeout := Some(n))
    ensures MergedConfig(c.(httpsProxy := Some(s)))
         == MergedConfig(c).(httpsProxy := Some(s))
    ensures MergedConfig(c.(httpProxy := Some(s)))
         == MergedConfig(c).(httpProxy := Some(s))
    ensures MergedConfig(c.(noProxy := Some(s)))
         == MergedConfig(c).(noProxy := Some(s))
  {
  }

  /** Choosing a protocol changes only the protocol field. */
  lemma ProtocolOverrideChangesOnlyProtocol(c: ClientConfig, p: ClientProtocol)
    ensures MergedConfig(c.(protocol := Some(p)))
         == MergedConfig(c).(protocol := ProtocolToNative(p, c.httpsExceptRegistries))
  {
  }

  /** HttpsExcept without a registry list excludes no registry; with one, it carries that list. */
  lemma HttpsExceptRegistries(c: ClientConfig)
    requires c.protocol == Some(HttpsExcept)
    ensures c.httpsExceptRegistries.None? ==> MergedConfig(c).protocol == Oci.HttpsExcept([])
    ensures c.httpsExceptRegistries.Some? ==> MergedConfig(c).protocol == Oci.HttpsExcept(c.httpsExceptRegistries.value)
  {
  }

  /** The registry list is read only when the protocol is HttpsExcept. */
  lemma RegistriesIgnoredUnlessHttpsExcept(c: ClientConfig, registries: Option<seq<string>>)
    requires c.protocol != Some(HttpsExcept)
    ensures MergedConfig(c.(httpsExceptRegistries := registries)) == MergedConfig(c)
  {
  }

  /** Extra root certificates keep their number, order, encoding and bytes. */
  lemma CertificatesKeptInOrder(c: ClientConfig)
    requires c.extraRootCertificates.Some?
    ensures |MergedConfig(c).extraRootCertificates| == |c.extraRootCertificates.value|
    ensures forall i :: 0 <= i < |c.extraRootCertificates.value| ==>
      MergedConfig(c).extraRootCertificates[i].data == c.extraRootCertificates.value[i].data &&
      (MergedConfig(c).extraRootCertificates[i].encoding == Oci.Pem <==> c.extraRootCertificates.value[i].encoding == Pem)
  {
  }
}
