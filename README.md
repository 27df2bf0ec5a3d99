# OCI client Node.js binding: conversion layer

This project models the conversion and validation layer of the Node.js binding
of the `oci_client` crate (`bindings/nodejs/src/lib.rs`). That layer sits between
the records JavaScript passes in and the native OCI types. It:

- checks a flat credential record (`auth_type` plus optional `username`,
  `password`, `token`) and turns it into the native Anonymous / Basic / Bearer
  credential, with one error message per missing field, checked in a fixed order;
- builds well-formed credential records with `anonymous_auth`, `basic_auth` and
  `bearer_auth`;
- overlays an all-optional client configuration onto the native default
  configuration, one field per present option;
- maps the native Image / ImageIndex manifest sum to a record with a
  discriminator and two optional fields, and back, where the way back can fail;
- copies descriptors, platforms, index entries, image indexes, image manifests,
  layers, configs, pull results, certificates and push responses field by field,
  and maps lists element by element.

Modules:

- `Wrappers` (`wrappers.dfy`): Rust's `Option` and `Result`.
- `Collections` (`collections.dfy`): `iter().map(f).collect()` and `Option::map`.
- `Oci` (`oci.dfy`): the native types of the crate and its default client
  configuration. Byte buffers are `seq<bv8>`. A `Duration` is its number of
  milliseconds. Rust `u8`, `u32` and `i64` are subset types of `int`.
- `Auth` (`auth.dfy`): the credential record, its conversion and the helper constructors.
- `Configs` (`client_config.dfy`): the client configuration, certificates and the merge.
  `ToNative` is a method: like the source, it starts from the default
  configuration and updates one field for each present option. It is proved
  equal to `MergedConfig`, which states each field's value independently.
- `Manifests` (`manifests.dfy`): descriptor, platform, index entry, image index,
  image manifest and the manifest union, with their conversions.
- `Images` (`image_data.dfy`): layers, config blobs, the pull result and the push response.

Two facts about the code that a reader might not expect:

- A Bearer record converts whenever `token` is present, including the empty
  string. Only absence is checked (`bindings/nodejs/src/lib.rs:71-74`).
- The default token expiration is 60 seconds (`bindings/nodejs/src/lib.rs:147`).

## Model

| member | source | states |
|---|---|---|
| `Collections.MapSeq` | bindings/nodejs/src/lib.rs:524 | Mapping a list keeps its length, and element i of the result is the converted element i of the input, so order is kept |
| `Collections.MapSeqInverse` | bindings/nodejs/src/lib.rs:518-544 | Mapping a list one way and then back with a left inverse returns the original list |
| `Collections.MapOptionInverse` | bindings/nodejs/src/lib.rs:525 | Mapping an optional value one way and then back with a left inverse returns the original value |
| `Auth.ToNative` | bindings/nodejs/src/lib.rs:56-78 | Conversion succeeds exactly when the variant's required fields are present; empty strings are accepted. The native variant matches `auth_type`, and Basic and Bearer carry the record's strings unchanged. A missing username gives "username required", and this wins over a missing password. A missing password with a username gives "password required". A Bearer without token gives "token required". Anonymous always succeeds |
| `Auth.AnonymousAuth` | bindings/nodejs/src/lib.rs:1093-1100 | The record leaves username, password and token empty and converts to native Anonymous |
| `Auth.BasicAuth` | bindings/nodejs/src/lib.rs:1104-1111 | The record leaves the token empty and converts to native Basic with the given username and password |
| `Auth.BearerAuth` | bindings/nodejs/src/lib.rs:1115-1122 | The record leaves username and password empty and converts to native Bearer with the given token |
| `Auth.ToNativeIgnoresUnusedFields` | bindings/nodejs/src/lib.rs:56-78 | The conversion result does not depend on the fields the chosen variant does not use |
| `Auth.HelpersReachEveryCredential` | bindings/nodejs/src/lib.rs:1093-1122 | Every native credential is the conversion of the record its helper constructor builds |
| `Auth.ConvertibleRecordsAreHelperRecords` | bindings/nodejs/src/lib.rs:56-78 | A record that converts equals the helper record for its result, once unused fields are cleared |
| `Auth.EmptyCredentialsAccepted` | bindings/nodejs/src/lib.rs:59-76 | Basic with empty username and password, and Bearer with an empty token, convert successfully |
| `Configs.ToNative` | bindings/nodejs/src/lib.rs:162-224 | The step-by-step overlay of options onto the default configuration gives the field-wise merge `MergedConfig` |
| `Configs.NoOverridesGiveDefault` | bindings/nodejs/src/lib.rs:162-224 | With every option absent, the result is exactly the default native configuration |
| `Configs.OverrideChangesOnlyItsField` | bindings/nodejs/src/lib.rs:179-221 | Setting any one non-protocol option changes only its own native field. Timeouts become `Some` of that many milliseconds, and certificates are converted element-wise |
| `Configs.ProtocolOverrideChangesOnlyProtocol` | bindings/nodejs/src/lib.rs:165-177 | Setting the protocol changes only the native protocol field, to the value `ProtocolToNative` gives |
| `Configs.HttpsExceptRegistries` | bindings/nodejs/src/lib.rs:169-175 | HttpsExcept with no registry list gives `HttpsExcept([])`. With a list, it carries that list |
| `Configs.RegistriesIgnoredUnlessHttpsExcept` | bindings/nodejs/src/lib.rs:165-177 | The registry list has no effect unless the protocol is HttpsExcept |
| `Configs.CertificatesKeptInOrder` | bindings/nodejs/src/lib.rs:187-189 | Extra root certificates keep their number and order, each certificate keeps its bytes, and PEM stays PEM |
| `Configs.CertificateToNativeInjective` | bindings/nodejs/src/lib.rs:117-126 | Two certificates with the same native form under `CertificateToNative` are equal, so the conversion loses no information |
| `Manifests.ManifestFromNative` | bindings/nodejs/src/lib.rs:571-586 | The discriminator names the native variant, and exactly the field it names is populated |
| `Manifests.ManifestToNative` | bindings/nodejs/src/lib.rs:588-603 | Conversion fails exactly when the field selected by the discriminator is absent, with that field's message. On success the native variant matches the discriminator and converts back to the selected field |
| `Manifests.DescriptorConversionsInverse` | bindings/nodejs/src/lib.rs:354-376 | `DescriptorFromNative` and `DescriptorToNative` are mutual inverses |
| `Manifests.PlatformConversionsInverse` | bindings/nodejs/src/lib.rs:395-419 | `PlatformFromNative` and `PlatformToNative` are mutual inverses |
| `Manifests.EntryConversionsInverse` | bindings/nodejs/src/lib.rs:436-458 | `EntryFromNative` and `EntryToNative` are mutual inverses, including the optional platform |
| `Manifests.ImageIndexConversionsInverse` | bindings/nodejs/src/lib.rs:475-497 | `ImageIndexFromNative` and `ImageIndexToNative` are mutual inverses. The entry list keeps its length, and each entry keeps its position and digest |
| `Manifests.ImageManifestConversionsInverse` | bindings/nodejs/src/lib.rs:518-544 | `ImageManifestFromNative` and `ImageManifestToNative` are mutual inverses. The layer list keeps its length, and each layer keeps its position and digest |
| `Manifests.ManifestRoundTrip` | bindings/nodejs/src/lib.rs:571-603 | Converting a native manifest to the record and back returns the same native manifest |
| `Manifests.ManifestToNativeIgnoresOtherField` | bindings/nodejs/src/lib.rs:591-601 | The field the discriminator does not select is ignored, even when populated |
| `Manifests.ManifestRecordRoundTrip` | bindings/nodejs/src/lib.rs:571-603 | A record that converts comes back as itself, with the unselected field cleared |
| `Images.LayerConversionsInverse` | bindings/nodejs/src/lib.rs:243-259 | `LayerFromNative` and `LayerToNative` are mutual inverses |
| `Images.ConfigConversionsInverse` | bindings/nodejs/src/lib.rs:273-289 | `ConfigFromNative` and `ConfigToNative` are mutual inverses |
| `Images.ImageDataFromNativeFaithful` | bindings/nodejs/src/lib.rs:306-313 | `ImageDataFromNative` keeps the layer count and order, and each layer keeps its bytes and media type. Layers, digest, config and manifest convert back to the native values |
| `Images.PushResponseFromNativeInjective` | bindings/nodejs/src/lib.rs:326-333 | `PushResponseFromNative` loses no information: two native responses that give the same record are equal, so both URLs are carried over |

## Left out

- The asynchronous `OciClient` methods (`pull`, `push`, `pull_referrers`, `push_manifest_list`, `pull_image_manifest`, `store_auth`, `pull_manifest`, `pull_manifest_raw`, `push_manifest`, `push_blob`, `pull_blob`, `blob_exists`, `mount_blob`, `list_tags`, `fetch_manifest_digest`). They wrap the crate's network client and the reference parser, whose code is not part of this model. Only their error-wrapping shape would remain.
- The synchronous constructors `new` and `with_config`. They only call `Client::default()`, or `Client::new` on the result of the modelled `ClientConfig::to_native`; the crate's `Client` is not part of this model.
- The registry engine in the crate: token cache, the auth challenge and retry, chunked upload sessions, digest hashing and concurrency limits. Its code is not part of this model.
- The annotation and media-type string constants. They are data without behaviour.
- JavaScript marshaling (`Buffer::from`, `to_vec`, `clone`). Each is treated as an identity copy of bytes or strings. `NativeImageLayer::new` and `NativeConfig::new` are treated as plain record construction.
- The native configuration's `platform_resolver` and `user_agent` fields. The binding never sets them. Their defaults are in the crate, which is not part of this model.
- The default configuration: protocol, certificate checking, monolithic push, concurrency limits and token expiration follow the binding's documented defaults. The defaults for timeouts, proxies and extra certificates (none, none, empty) are assumed, because the crate's `ClientConfig::default` is not part of this model.
