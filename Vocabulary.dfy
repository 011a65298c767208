/** The closed, string-backed value domains of the NG protocol (variables.go).

    Every Go type here is `type T string`, so a field of that type can hold any string; the
    constants are the wire tokens the library knows about. Each domain is given as a type
    synonym for `string`, one constant per Go constant, and a sequence listing the domain in
    declaration order. The hand-listed derived families (codec x operation, crypto suite x
    no/only) are related by lemmas to `Prefixed`, the derivation the option builders use. */
module Vocabulary {

  /** Pairwise distinct elements. */
  predicate Distinct(s: seq<string>)
  {
    forall i, j :: 0 <= i < j < |s| ==> s[i] != s[j]
  }

  /** One token `prefix + item` per item, in item order: how ng_protocol.go derives the
      "codec-<op>-<codec>" flags and the "no-"/"only-" SDES suite tokens. */
  function Prefixed(prefix: string, items: seq<string>): (r: seq<string>)
    ensures |r| == |items|
    ensures forall i :: 0 <= i < |items| ==> r[i] == prefix + items[i]
  {
    if items == [] then [] else [prefix + items[0]] + Prefixed(prefix, items[1..])
  }

  /** `Prefixed` distributes over concatenation: deriving tokens for two lists one after
      the other appends the two derived lists. */
  lemma {:induction false} PrefixedAppend(prefix: string, a: seq<string>, b: seq<string>)
    ensures Prefixed(prefix, a + b) == Prefixed(prefix, a) + Prefixed(prefix, b)
  {
    if a != [] {
      assert (a + b)[1..] == a[1..] + b;
      PrefixedAppend(prefix, a[1..], b);
    }
  }

  /** A list that has `prefix + items[i]` at every position i is `Prefixed(prefix, items)`. */
  lemma PrefixedFromPointwise(prefix: string, items: seq<string>, derived: seq<string>)
    requires |derived| == |items|
    requires forall i :: 0 <= i < |items| ==> derived[i] == prefix + items[i]
    ensures derived == Prefixed(prefix, items)
  {
  }

  /** Tokens derived with the same prefix are equal only when their items are. */
  lemma PrefixCancel(prefix: string, a: string, b: string)
    requires prefix + a == prefix + b
    ensures a == b
  {
    assert a == (prefix + a)[|prefix|..];
    assert b == (prefix + b)[|prefix|..];
  }

  /** An item missing from a list has no derived token in the prefixed list. */
  lemma PrefixedExcludes(prefix: string, items: seq<string>, x: string)
    requires x !in items
    ensures prefix + x !in Prefixed(prefix, items)
  {
    var r := Prefixed(prefix, items);
    if prefix + x in r {
      var i :| 0 <= i < |r| && r[i] == prefix + x;
      PrefixCancel(prefix, x, items[i]);
    }
  }

  // ---- TransportProtocol ----

  type TransportProtocol = string

  const RtpAvp: TransportProtocol := "RTP/AVP"
  const RtpSavp: TransportProtocol := "RTP/SAVP"
  const RtpAvpf: TransportProtocol := "RTP/AVPF"
  const RtpSavpf: TransportProtocol := "RTP/SAVPF"
  const UdpTlsRtpSavp: TransportProtocol := "UDP/TLS/RTP/SAVP"
  const UdpTlsRtpSavpf: TransportProtocol := "UDP/TLS/RTP/SAVPF"

  const TransportProtocols: seq<TransportProtocol> :=
    [RtpAvp, RtpSavp, RtpAvpf, RtpSavpf, UdpTlsRtpSavp, UdpTlsRtpSavpf]

  // ---- TypeCommands ----

  type Command = string

  const Ping: Command := "ping"
  const Offer: Command := "offer"
  const Answer: Command := "answer"
  const Delete: Command := "delete"
  const Query: Command := "query"
  const List: Command := "list"
  const StartRecording: Command := "start recording"
  const StopRecording: Command := "stop recording"
  const PauseRecording: Command := "pause recording"
  const BlockDtmf: Command := "block DTMF"
  const UnblockDtmf: Command := "unblock DTMF"
  const BlockMedia: Command := "block media"
  const UnblockMedia: Command := "unblock media"
  const SilenceMedia: Command := "silence media"
  const UnsilenceMedia: Command := "unsilence media"
  const StartForwarding: Command := "start forwarding"
  const StopForwarding: Command := "stop forwarding"
  const PlayMedia: Command := "play media"
  const StopMedia: Command := "stop media"
  const PlayDtmf: Command := "play DTMF"
  const Statistics: Command := "statistics"
  const Publish: Command := "publish"
  const SubscribeRequest: Command := "subscribe request"
  const SubscribeAnswer: Command := "subscribe answer"
  const Unsubscribe: Command := "unsubscribe"
  const Connect: Command := "connect"

  /** The commands in declaration order, in four runs of six or seven. */
  const Commands: seq<Command> := CommandsRun1 + CommandsRun2 + CommandsRun3 + CommandsRun4

  const CommandsRun1: seq<Command> := [Ping, Offer, Answer, Delete, Query, List]
  const CommandsRun2: seq<Command> :=
    [StartRecording, StopRecording, PauseRecording, BlockDtmf, UnblockDtmf, BlockMedia,
     UnblockMedia]
  const CommandsRun3: seq<Command> :=
    [SilenceMedia, UnsilenceMedia, StartForwarding, StopForwarding, PlayMedia, StopMedia,
     PlayDtmf]
  const CommandsRun4: seq<Command> :=
    [Statistics, Publish, SubscribeRequest, SubscribeAnswer, Unsubscribe, Connect]

  // ---- DtlsHash ----

  type DtlsHash = string

  const Sha256: DtlsHash := "sha-256"
  const Sha1: DtlsHash := "sha-1"
  const Sha224: DtlsHash := "sha-224"
  const Sha384: DtlsHash := "sha-384"
  const Sha512: DtlsHash := "sha-512"

  const DtlsHashes: seq<DtlsHash> := [Sha256, Sha1, Sha224, Sha384, Sha512]

  // ---- CryptoSuite ----

  type CryptoSuite = string

  const SrtpAeadAes256Gcm: CryptoSuite := "AEAD_AES_256_GCM"
  const SrtpAeadAes128Gcm: CryptoSuite := "AEAD_AES_128_GCM"
  const SrtpAes256CmHmacSha1_80: CryptoSuite := "AES_256_CM_HMAC_SHA1_80"
  const SrtpAes256CmHmacSha1_32: CryptoSuite := "AES_256_CM_HMAC_SHA1_32"
  const SrtpAes192CmHmacSha1_80: CryptoSuite := "AES_192_CM_HMAC_SHA1_80"
  const SrtpAes192CmHmacSha1_32: CryptoSuite := "AES_192_CM_HMAC_SHA1_32"
  const SrtpAesCm128HmacSha1_80: CryptoSuite := "AES_CM_128_HMAC_SHA1_80"
  const SrtpAesCm128HmacSha1_32: CryptoSuite := "AES_CM_128_HMAC_SHA1_32"
  const SrtpF8_128HmacSha1_80: CryptoSuite := "F8_128_HMAC_SHA1_80"
  const SrtpF8_128HmacSha1_32: CryptoSuite := "F8_128_HMAC_SHA1_32"
  const SrtpNullHmacSha1_80: CryptoSuite := "NULL_HMAC_SHA1_80"
  const SrtpNullHmacSha1_32: CryptoSuite := "NULL_HMAC_SHA1_32"

  const CryptoSuites: seq<CryptoSuite> :=
    [SrtpAeadAes256Gcm, SrtpAeadAes128Gcm, SrtpAes256CmHmacSha1_80, SrtpAes256CmHmacSha1_32,
     SrtpAes192CmHmacSha1_80, SrtpAes192CmHmacSha1_32, SrtpAesCm128HmacSha1_80,
     SrtpAesCm128HmacSha1_32, SrtpF8_128HmacSha1_80, SrtpF8_128HmacSha1_32,
     SrtpNullHmacSha1_80, SrtpNullHmacSha1_32]

  // ---- ParamReplace ----

  type ParamReplace = string

  const Origin: ParamReplace := "origin"
  const OriginFull: ParamReplace := "origin-full"
  const SessionConnection: ParamReplace := "session-connection"
  const SdpVersion: ParamReplace := "SDP-version"
  const Username: ParamReplace := "username"
  const SessionName: ParamReplace := "session-name"
  const ZeroAddress: ParamReplace := "zero-address"
  const ForceIncrementSdpVersion: ParamReplace := "force-increment-sdp-version"
  const ForceIncrementSdpVer: ParamReplace := "force-increment-sdp-ver"

  const ReplaceParams: seq<ParamReplace> :=
    [Origin, OriginFull, SessionConnection, SdpVersion, Username, SessionName, ZeroAddress,
     ForceIncrementSdpVersion, ForceIncrementSdpVer]

  // ---- ParamFlags ----

  type ParamFlag = string

  const TrustAddress: ParamFlag := "trust-address"
  const Symmetric: ParamFlag := "symmetric"
  const Asymmetric: ParamFlag := "asymmetric"
  const Unidirectional: ParamFlag := "unidirectional"
  const Force: ParamFlag := "force"
  const StrictSource: ParamFlag := "strict-source"
  const MediaHandover: ParamFlag := "media-handover"
  const Reset: ParamFlag := "reset"
  const PortLatching: ParamFlag := "port-latching"
  const NoRtcpAttribute: ParamFlag := "no-rtcp-attribute"
  const FullRtcpAttribute: ParamFlag := "full-rtcp-attribute"
  const LoopProtect: ParamFlag := "loop-protect"
  const RecordCall: ParamFlag := "record-call"
  const AlwaysTranscode: ParamFlag := "always-transcode"
  const Siprec: ParamFlag := "SIPREC"
  const PadCrypto: ParamFlag := "pad-crypto"
  const GenerateMid: ParamFlag := "generate-mid"
  const Fragment: ParamFlag := "fragment"
  const OriginalSendrecv: ParamFlag := "original-sendrecv"
  const SymmetricCodecs: ParamFlag := "symmetric-codecs"
  const AsymmetricCodecs: ParamFlag := "asymmetric-codecs"
  const InjectDtmf: ParamFlag := "inject-DTMF"
  const DetectDtmf: ParamFlag := "detect-DTMF"
  const GenerateRtcp: ParamFlag := "generate-RTCP"
  const SingleCodec: ParamFlag := "single-codec"
  const NoCodecRenegotiation: ParamFlag := "no-codec-renegotiation"
  const PierceNat: ParamFlag := "pierce-NAT"
  const SipSourceAddress: ParamFlag := "SIP-source-address"
  const AllowTranscoding: ParamFlag := "allow-transcoding"
  const TrickleIce: ParamFlag := "trickle-ICE"
  const RejectIce: ParamFlag := "reject-ICE"
  const Egress: ParamFlag := "egress"
  const NoJitterBuffer: ParamFlag := "no-jitter-buffer"
  const Passthrough: ParamFlag := "passthrough"
  const NoPassthrough: ParamFlag := "no-passthrough"
  const Pause: ParamFlag := "pause"
  const EarlyMedia: ParamFlag := "early-media"
  const BlockShort: ParamFlag := "block-short"
  const RecordingVsc: ParamFlag := "recording-vsc"
  const BlockEgress: ParamFlag := "block-egress"
  const StripExtmap: ParamFlag := "strip-extmap"
  const NatWait: ParamFlag := "NAT-wait"
  const NoPortLatching: ParamFlag := "no-port-latching"
  const RecordingAnnouncement: ParamFlag := "recording-announcement"
  const ReuseCodecs: ParamFlag := "reuse-codecs"
  const RtcpMirror: ParamFlag := "RTCP-mirror"
  const StaticCodecs: ParamFlag := "static-codecs"

  /** The single-word behaviour flags, before the codec families. */
  const BaseFlags: seq<ParamFlag> :=
    [TrustAddress, Symmetric, Asymmetric, Unidirectional, Force, StrictSource, MediaHandover,
     Reset, PortLatching, NoRtcpAttribute, FullRtcpAttribute, LoopProtect, RecordCall,
     AlwaysTranscode, Siprec, PadCrypto, GenerateMid, Fragment, OriginalSendrecv,
     SymmetricCodecs, AsymmetricCodecs, InjectDtmf, DetectDtmf, GenerateRtcp, SingleCodec,
     NoCodecRenegotiation, PierceNat, SipSourceAddress, AllowTranscoding, TrickleIce,
     RejectIce, Egress, NoJitterBuffer, Passthrough, NoPassthrough, Pause, EarlyMedia,
     BlockShort, RecordingVsc, BlockEgress, StripExtmap, NatWait, NoPortLatching,
     RecordingAnnouncement, ReuseCodecs, RtcpMirror, StaticCodecs]

  const CodecExceptPcmu: ParamFlag := "codec-except-PCMU"
  const CodecExceptPcma: ParamFlag := "codec-except-PCMA"
  const CodecExceptG729: ParamFlag := "codec-except-G729"
  const CodecExceptG729a: ParamFlag := "codec-except-G729a"
  const CodecExceptOpus: ParamFlag := "codec-except-opus"
  const CodecExceptG722: ParamFlag := "codec-except-G722"
  const CodecExceptG723: ParamFlag := "codec-except-G723"
  const CodecExceptIlbc: ParamFlag := "codec-except-iLBC"
  const CodecExceptSpeex: ParamFlag := "codec-except-speex"

  const CodecExceptFlags: seq<ParamFlag> :=
    [CodecExceptPcmu, CodecExceptPcma, CodecExceptG729, CodecExceptG729a, CodecExceptOpus,
     CodecExceptG722, CodecExceptG723, CodecExceptIlbc, CodecExceptSpeex]

  const CodecStripPcmu: ParamFlag := "codec-strip-PCMU"
  const CodecStripPcma: ParamFlag := "codec-strip-PCMA"
  const CodecStripG729: ParamFlag := "codec-strip-G729"
  const CodecStripG729a: ParamFlag := "codec-strip-G729a"
  const CodecStripOpus: ParamFlag := "codec-strip-opus"
  const CodecStripG722: ParamFlag := "codec-strip-G722"
  const CodecStripG723: ParamFlag := "codec-strip-G723"
  const CodecStripIlbc: ParamFlag := "codec-strip-iLBC"
  const CodecStripSpeex: ParamFlag := "codec-strip-speex"

  const CodecStripFlags: seq<ParamFlag> :=
    [CodecStripPcmu, CodecStripPcma, CodecStripG729, CodecStripG729a, CodecStripOpus,
     CodecStripG722, CodecStripG723, CodecStripIlbc, CodecStripSpeex]

  const CodecMaskPcma: ParamFlag := "codec-mask-PCMA"
  const CodecMaskG729: ParamFlag := "codec-mask-G729"
  const CodecMaskG729a: ParamFlag := "codec-mask-G729a"
  const CodecMaskOpus: ParamFlag := "codec-mask-opus"
  const CodecMaskG722: ParamFlag := "codec-mask-G722"
  const CodecMaskG723: ParamFlag := "codec-mask-G723"
  const CodecMaskIlbc: ParamFlag := "codec-mask-iLBC"
  const CodecMaskSpeex: ParamFlag := "codec-mask-speex"

  const CodecMaskFlags: seq<ParamFlag> :=
    [CodecMaskPcma, CodecMaskG729, CodecMaskG729a, CodecMaskOpus, CodecMaskG722,
     CodecMaskG723, CodecMaskIlbc, CodecMaskSpeex]

  const CodecTranscodePcma: ParamFlag := "codec-transcode-PCMA"
  const CodecTranscodeG729: ParamFlag := "codec-transcode-G729"
  const CodecTranscodeG729a: ParamFlag := "codec-transcode-G729a"
  const CodecTranscodeOpus: ParamFlag := "codec-transcode-opus"
  const CodecTranscodeG722: ParamFlag := "codec-transcode-G722"
  const CodecTranscodeG723: ParamFlag := "codec-transcode-G723"
  const CodecTranscodeIlbc: ParamFlag := "codec-transcode-iLBC"
  const CodecTranscodeSpeex: ParamFlag := "codec-transcode-speex"

  const CodecTranscodeFlags: seq<ParamFlag> :=
    [CodecTranscodePcma, CodecTranscodeG729, CodecTranscodeG729a, CodecTranscodeOpus,
     CodecTranscodeG722, CodecTranscodeG723, CodecTranscodeIlbc, CodecTranscodeSpeex]

  // ---- ParamRTCPMux ----

  type RtcpMux = string

  const RtcpOffer: RtcpMux := "offer"
  const RtcpRequire: RtcpMux := "require"
  const RtcpDemux: RtcpMux := "demux"
  const RtcpAccept: RtcpMux := "accept"
  const RtcpReject: RtcpMux := "reject"

  const RtcpMuxModes: seq<RtcpMux> := [RtcpOffer, RtcpRequire, RtcpDemux, RtcpAccept, RtcpReject]

  // ---- Codecs ----

  type Codec = string

  const CodecPcmu: Codec := "PCMU"
  const CodecPcma: Codec := "PCMA"
  const CodecG729: Codec := "G729"
  const CodecG729a: Codec := "G729a"
  const CodecOpus: Codec := "opus"
  const CodecG722: Codec := "G722"
  const CodecG723: Codec := "G723"
  const CodecIlbc: Codec := "iLBC"
  const CodecSpeex: Codec := "speex"

  const Codecs: seq<Codec> :=
    [CodecPcmu, CodecPcma, CodecG729, CodecG729a, CodecOpus, CodecG722, CodecG723, CodecIlbc,
     CodecSpeex]

  // ---- ICE ----

  type Ice = string

  const IceRemove: Ice := "remove"
  const IceForce: Ice := "force"
  const IceDefault: Ice := "default"
  const IceForceRelay: Ice := "force-relay"
  const IceOptional: Ice := "optional"

  const IceModes: seq<Ice> := [IceRemove, IceForce, IceDefault, IceForceRelay, IceOptional]

  // ---- DTLS, DTLSReverse, DTLSFingerprint ----

  type Dtls = string

  const DtlsOff: Dtls := "off"
  const DtlsNo: Dtls := "no"
  const DtlsDisable: Dtls := "disable"
  const DtlsPassive: Dtls := "passive"
  const DtlsActive: Dtls := "active"

  const DtlsModes: seq<Dtls> := [DtlsOff, DtlsNo, DtlsDisable, DtlsPassive, DtlsActive]

  type DtlsReverse = string

  const DtlsReversePassive: DtlsReverse := "passive"
  const DtlsReverseActive: DtlsReverse := "active"

  const DtlsReverseModes: seq<DtlsReverse> := [DtlsReversePassive, DtlsReverseActive]

  type DtlsFingerprint = string

  const DtlsFingerprintSha256: DtlsFingerprint := "sha-256"
  const DtlsFingerprintSha1: DtlsFingerprint := "sha-1"
  const DtlsFingerprintSha224: DtlsFingerprint := "sha-224"
  const DtlsFingerprintSha384: DtlsFingerprint := "sha-384"
  const DtlsFingerprintSha512: DtlsFingerprint := "sha-512"

  const DtlsFingerprints: seq<DtlsFingerprint> :=
    [DtlsFingerprintSha256, DtlsFingerprintSha1, DtlsFingerprintSha224, DtlsFingerprintSha384,
     DtlsFingerprintSha512]

  // ---- SDES ----

  type Sdes = string

  const SdesOff: Sdes := "off"
  const SdesNo: Sdes := "no"
  const SdesDisable: Sdes := "disable"
  const SdesNonew: Sdes := "nonew"
  const SdesPad: Sdes := "pad"
  const SdesStatic: Sdes := "static"
  const SdesPrefer: Sdes := "prefer"
  const SdesUnencryptedSrtp: Sdes := "unencrypted_srtp"
  const SdesUnencryptedSrtcp: Sdes := "unencrypted_srtcp"
  const SdesUnauthenticatedSrtp: Sdes := "unauthenticated_srtp"
  const SdesEncryptedSrtp: Sdes := "encrypted_srtp"
  const SdesEncryptedSrtcp: Sdes := "encrypted_srtcp"
  const SdesAuthenticatedSrtp: Sdes := "authenticated_srtp"

  const SdesBaseModes: seq<Sdes> :=
    [SdesOff, SdesNo, SdesDisable, SdesNonew, SdesPad, SdesStatic, SdesPrefer,
     SdesUnencryptedSrtp, SdesUnencryptedSrtcp, SdesUnauthenticatedSrtp, SdesEncryptedSrtp,
     SdesEncryptedSrtcp, SdesAuthenticatedSrtp]

  const SdesNoAeadAes256Gcm: Sdes := "no-AEAD_AES_256_GCM"
  const SdesNoAeadAes128Gcm: Sdes := "no-AEAD_AES_128_GCM"
  const SdesNoAes256CmHmacSha1_80: Sdes := "no-AES_256_CM_HMAC_SHA1_80"
  const SdesNoAes256CmHmacSha1_32: Sdes := "no-AES_256_CM_HMAC_SHA1_32"
  const SdesNoAes192CmHmacSha1_80: Sdes := "no-AES_192_CM_HMAC_SHA1_80"
  const SdesNoAes192CmHmacSha1_32: Sdes := "no-AES_192_CM_HMAC_SHA1_32"
  const SdesNoAesCm128HmacSha1_80: Sdes := "no-AES_CM_128_HMAC_SHA1_80"
  const SdesNoAesCm128HmacSha1_32: Sdes := "no-AES_CM_128_HMAC_SHA1_32"
  const SdesNoF8_128HmacSha1_80: Sdes := "no-F8_128_HMAC_SHA1_80"
  const SdesNoF8_128HmacSha1_32: Sdes := "no-F8_128_HMAC_SHA1_32"
  const SdesNoNullHmacSha1_80: Sdes := "no-NULL_HMAC_SHA1_80"
  const SdesNoNullHmacSha1_32: Sdes := "no-NULL_HMAC_SHA1_32"

  const SdesNoSuites: seq<Sdes> :=
    [SdesNoAeadAes256Gcm, SdesNoAeadAes128Gcm, SdesNoAes256CmHmacSha1_80,
     SdesNoAes256CmHmacSha1_32, SdesNoAes192CmHmacSha1_80, SdesNoAes192CmHmacSha1_32,
     SdesNoAesCm128HmacSha1_80, SdesNoAesCm128HmacSha1_32, SdesNoF8_128HmacSha1_80,
     SdesNoF8_128HmacSha1_32, SdesNoNullHmacSha1_80, SdesNoNullHmacSha1_32]

  const SdesOnlyAeadAes256Gcm: Sdes := "only-AEAD_AES_256_GCM"
  const SdesOnlyAeadAes128Gcm: Sdes := "only-AEAD_AES_128_GCM"
  const SdesOnlyAes256CmHmacSha1_80: Sdes := "only-AES_256_CM_HMAC_SHA1_80"
  const SdesOnlyAes256CmHmacSha1_32: Sdes := "only-AES_256_CM_HMAC_SHA1_32"
  const SdesOnlyAes192CmHmacSha1_80: Sdes := "only-AES_192_CM_HMAC_SHA1_80"
  const SdesOnlyAes192CmHmacSha1_32: Sdes := "only-AES_192_CM_HMAC_SHA1_32"
  const SdesOnlyAesCm128HmacSha1_80: Sdes := "only-AES_CM_128_HMAC_SHA1_80"
  const SdesOnlyAesCm128HmacSha1_32: Sdes := "only-AES_CM_128_HMAC_SHA1_32"
  const SdesOnlyF8_128HmacSha1_80: Sdes := "only-F8_128_HMAC_SHA1_80"
  const SdesOnlyF8_128HmacSha1_32: Sdes := "only-F8_128_HMAC_SHA1_32"
  const SdesOnlyNullHmacSha1_80: Sdes := "only-NULL_HMAC_SHA1_80"
  const SdesOnlyNullHmacSha1_32: Sdes := "only-NULL_HMAC_SHA1_32"

  const SdesOnlySuites: seq<Sdes> :=
    [SdesOnlyAeadAes256Gcm, SdesOnlyAeadAes128Gcm, SdesOnlyAes256CmHmacSha1_80,
     SdesOnlyAes256CmHmacSha1_32, SdesOnlyAes192CmHmacSha1_80, SdesOnlyAes192CmHmacSha1_32,
     SdesOnlyAesCm128HmacSha1_80, SdesOnlyAesCm128HmacSha1_32, SdesOnlyF8_128HmacSha1_80,
     SdesOnlyF8_128HmacSha1_32, SdesOnlyNullHmacSha1_80, SdesOnlyNullHmacSha1_32]

  // ---- OSRTP ----

  type Osrtp = string

  const OsrtpOffer: Osrtp := "offer"
  const OsrtpOfferRfc: Osrtp := "offer-RFC"
  const OsrtpOfferLegacy: Osrtp := "offer-legacy"
  const OsrtpAcceptRfc: Osrtp := "accept-RFC"
  const OsrtpAcceptLegacy: Osrtp := "accept-legacy"
  const OsrtpAccept: Osrtp := "accept"

  const OsrtpModes: seq<Osrtp> :=
    [OsrtpOffer, OsrtpOfferRfc, OsrtpOfferLegacy, OsrtpAcceptRfc, OsrtpAcceptLegacy, OsrtpAccept]

  // ---- AddressFamily, Connection, Record ----

  type AddressFamily = string

  const AddressFamilyIp4: AddressFamily := "IP4"
  const AddressFamilyIp6: AddressFamily := "IP6"

  type Connection = string

  /** The connection type used for music on hold. */
  const MohConnection: Connection := "zero"

  type Record = string

  const RecordYes: Record := "yes"
  const RecordNo: Record := "no"
  const RecordOn: Record := "on"
  const RecordOff: Record := "off"

  const RecordModes: seq<Record> := [RecordYes, RecordNo, RecordOn, RecordOff]

  // ---- Properties of the vocabulary ----

  /** The six transport protocols are distinct wire tokens. */
  lemma TransportProtocolsDistinct()
    ensures |TransportProtocols| == 6 && Distinct(TransportProtocols)
  {
  }

  /** No element of `a` occurs in `b`. */
  predicate Disjoint(a: seq<string>, b: seq<string>)
  {
    forall x :: x in a ==> x !in b
  }

  /** Two lists without repeats and without common elements concatenate to one without
      repeats. */
  lemma DistinctConcat(a: seq<string>, b: seq<string>)
    requires Distinct(a) && Distinct(b) && Disjoint(a, b)
    ensures Distinct(a + b)
  {
    forall i, j | 0 <= i < j < |a + b|
      ensures (a + b)[i] != (a + b)[j]
    {
      if j >= |a| && i < |a| {
        assert (a + b)[i] in a && (a + b)[j] in b;
      }
    }
  }

  /** The 26 commands are distinct wire tokens; the multi-word ones keep their space. */
  lemma CommandsDistinct()
    ensures |Commands| == 26 && Distinct(Commands)
    ensures ' ' in StartRecording && ' ' in SubscribeAnswer && ' ' !in Offer
  {
    CommandRunsDistinct();
    CommandRunsDisjoint1();
    CommandRunsDisjoint2();
    DistinctConcat(CommandsRun1, CommandsRun2);
    DistinctConcat(CommandsRun1 + CommandsRun2, CommandsRun3);
    DistinctConcat(CommandsRun1 + CommandsRun2 + CommandsRun3, CommandsRun4);
  }

  lemma CommandRunsDistinct()
    ensures Distinct(CommandsRun1) && Distinct(CommandsRun2)
    ensures Distinct(CommandsRun3) && Distinct(CommandsRun4)
  {
  }

  lemma CommandRunsDisjoint1()
    ensures Disjoint(CommandsRun1, CommandsRun2)
    ensures Disjoint(CommandsRun1 + CommandsRun2, CommandsRun3)
  {
  }

  lemma CommandRunsDisjoint2()
    ensures Disjoint(CommandsRun1 + CommandsRun2 + CommandsRun3, CommandsRun4)
  {
  }

  /** Within each mode domain the tokens are distinct. */
  lemma ModesDistinct()
    ensures Distinct(IceModes) && Distinct(DtlsModes) && Distinct(RtcpMuxModes)
    ensures Distinct(OsrtpModes) && Distinct(RecordModes)
  {
  }

  /** The DTLS fingerprint tokens coincide one for one with the DTLS hash tokens. */
  lemma DtlsFingerprintsAreHashes()
    ensures DtlsFingerprints == DtlsHashes
  {
  }

  // The twelve token equations of each SDES family, two at a time (each equation is a
  // character-by-character comparison, so they are kept in small groups).

  lemma SdesNoTokensPart1()
    ensures SdesNoAeadAes256Gcm == "no-" + SrtpAeadAes256Gcm
    ensures SdesNoAeadAes128Gcm == "no-" + SrtpAeadAes128Gcm
  {
  }

  lemma SdesNoTokensPart2()
    ensures SdesNoAes256CmHmacSha1_80 == "no-" + SrtpAes256CmHmacSha1_80
    ensures SdesNoAes256CmHmacSha1_32 == "no-" + SrtpAes256CmHmacSha1_32
  {
  }

  lemma SdesNoTokensPart3()
    ensures SdesNoAes192CmHmacSha1_80 == "no-" + SrtpAes192CmHmacSha1_80
    ensures SdesNoAes192CmHmacSha1_32 == "no-" + SrtpAes192CmHmacSha1_32
  {
  }

  lemma SdesNoTokensPart4()
    ensures SdesNoAesCm128HmacSha1_80 == "no-" + SrtpAesCm128HmacSha1_80
    ensures SdesNoAesCm128HmacSha1_32 == "no-" + SrtpAesCm128HmacSha1_32
  {
  }

  lemma SdesNoTokensPart5()
    ensures SdesNoF8_128HmacSha1_80 == "no-" + SrtpF8_128HmacSha1_80
    ensures SdesNoF8_128HmacSha1_32 == "no-" + SrtpF8_128HmacSha1_32
  {
  }

  lemma SdesNoTokensPart6()
    ensures SdesNoNullHmacSha1_80 == "no-" + SrtpNullHmacSha1_80
    ensures SdesNoNullHmacSha1_32 == "no-" + SrtpNullHmacSha1_32
  {
  }

  lemma SdesOnlyTokensPart1()
    ensures SdesOnlyAeadAes256Gcm == "only-" + SrtpAeadAes256Gcm
    ensures SdesOnlyAeadAes128Gcm == "only-" + SrtpAeadAes128Gcm
  {
  }

  lemma SdesOnlyTokensPart2()
    ensures SdesOnlyAes256CmHmacSha1_80 == "only-" + SrtpAes256CmHmacSha1_80
    ensures SdesOnlyAes256CmHmacSha1_32 == "only-" + SrtpAes256CmHmacSha1_32
  {
  }

  lemma SdesOnlyTokensPart3()
    ensures SdesOnlyAes192CmHmacSha1_80 == "only-" + SrtpAes192CmHmacSha1_80
    ensures SdesOnlyAes192CmHmacSha1_32 == "only-" + SrtpAes192CmHmacSha1_32
  {
  }

  lemma SdesOnlyTokensPart4()
    ensures SdesOnlyAesCm128HmacSha1_80 == "only-" + SrtpAesCm128HmacSha1_80
    ensures SdesOnlyAesCm128HmacSha1_32 == "only-" + SrtpAesCm128HmacSha1_32
  {
  }

  lemma SdesOnlyTokensPart5()
    ensures SdesOnlyF8_128HmacSha1_80 == "only-" + SrtpF8_128HmacSha1_80
    ensures SdesOnlyF8_128HmacSha1_32 == "only-" + SrtpF8_128HmacSha1_32
  {
  }

  lemma SdesOnlyTokensPart6()
    ensures SdesOnlyNullHmacSha1_80 == "only-" + SrtpNullHmacSha1_80
    ensures SdesOnlyNullHmacSha1_32 == "only-" + SrtpNullHmacSha1_32
  {
  }

  /** Each hand-listed "no-" SDES token is "no-" followed by the crypto suite of the same
      position: the list is exactly what DeleteSDES derives from all twelve suites. */
  lemma SdesNoFamily()
    ensures SdesNoSuites == Prefixed("no-", CryptoSuites)
  {
    SdesNoTokensPart1();
    SdesNoTokensPart2();
    SdesNoTokensPart3();
    SdesNoTokensPart4();
    SdesNoTokensPart5();
    SdesNoTokensPart6();
    PrefixedFromPointwise("no-", CryptoSuites, SdesNoSuites);
  }

  /** Each hand-listed "only-" SDES token is "only-" followed by the crypto suite of the same
      position: the list is exactly what EnableSDES derives from all twelve suites. */
  lemma SdesOnlyFamily()
    ensures SdesOnlySuites == Prefixed("only-", CryptoSuites)
  {
    SdesOnlyTokensPart1();
    SdesOnlyTokensPart2();
    SdesOnlyTokensPart3();
    SdesOnlyTokensPart4();
    SdesOnlyTokensPart5();
    SdesOnlyTokensPart6();
    PrefixedFromPointwise("only-", CryptoSuites, SdesOnlySuites);
  }

  /** The except and strip families cover all nine codecs, in codec order. */
  lemma CodecExceptStripFamilies()
    ensures CodecExceptFlags == Prefixed("codec-except-", Codecs)
    ensures CodecStripFlags == Prefixed("codec-strip-", Codecs)
  {
    PrefixedFromPointwise("codec-except-", Codecs, CodecExceptFlags);
    PrefixedFromPointwise("codec-strip-", Codecs, CodecStripFlags);
  }

  /** The mask family covers the eight codecs after PCMU, in codec order, and leaves PCMU
      out. */
  lemma CodecMaskFamily()
    ensures Codecs[0] == CodecPcmu
    ensures CodecMaskFlags == Prefixed("codec-mask-", Codecs[1..])
    ensures "codec-mask-" + CodecPcmu !in CodecMaskFlags
  {
    PrefixedFromPointwise("codec-mask-", Codecs[1..], CodecMaskFlags);
    assert CodecPcmu !in Codecs[1..];
    PrefixedExcludes("codec-mask-", Codecs[1..], CodecPcmu);
  }

  /** The transcode family covers the eight codecs after PCMU, in codec order, and leaves
      PCMU out. */
  lemma CodecTranscodeFamily()
    ensures Codecs[0] == CodecPcmu
    ensures CodecTranscodeFlags == Prefixed("codec-transcode-", Codecs[1..])
    ensures "codec-transcode-" + CodecPcmu !in CodecTranscodeFlags
  {
    PrefixedFromPointwise("codec-transcode-", Codecs[1..], CodecTranscodeFlags);
    assert CodecPcmu !in Codecs[1..];
    PrefixedExcludes("codec-transcode-", Codecs[1..], CodecPcmu);
  }
}
