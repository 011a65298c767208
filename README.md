# go-rtpengine: NG request building and framing, in Dafny

go-rtpengine is a Go client for the NG control protocol of the rtpengine media proxy. A
request is a bencoded dictionary. It is sent as `cookie + " " + body`, and a response comes
back framed with the same cookie. This project models the deterministic core of the client:

- **Vocabulary** (`Vocabulary.dfy`, from `variables.go`): the string-backed value domains
  and the hand-listed derived token families. These are commands, transport protocols,
  ICE/DTLS/SDES/OSRTP/RTCP-mux/record modes, replace parameters, flags, codecs and crypto
  suites. Lemmas relate each family to the mechanical derivation `Prefixed` that the option
  setters use.
- **Bencode** (`Bencode.dfy`): the subset of bencoding (BitTorrent BEP 3, section
  "bencoding") that requests and responses use: integers, byte strings, lists and
  dictionaries. It has an encoder and a parser, and the two are proved inverse in both
  directions: the parser reads back every encoding, and it accepts nothing but encodings.
- **Records and framing** (`RtpEngine.dfy`, from `rtpengine.go`):
  - the request and response records;
  - the flattening of a request's three embedded parameter aggregates into one dictionary,
    under their `bencode` tags, dropping empty fields (`omitempty`);
  - `EncodeComando` and `DecodeResposta`, with the two cookie checks and their exact error
    reasons;
  - the mapping of a response dictionary onto the record by `json` tag.

  A Go pointer to a parameter aggregate is an object `Ptr<T>`. A request under construction
  is a `RequestRtp` object that holds three such pointers.
- **Builders and options** (`NgProtocol.dfy`, from `ng_protocol.go`):
  - every `ParametrosOption` setter, as one constructor of an option datatype;
  - its pure effect `Applied`, and the fail-fast fold `Run`;
  - the in-place methods `Apply` and `Build`, proved to reach exactly what `Run` describes;
  - `SDPOffering`, `SDPAnswer` and `SDPDelete`.
- **UDP answer preset** (`SdpAnswer.dfy`, from `sdp_answer.go`): `ProfilerRTP_UDP_Answer`.
  It is proved to build exactly the requested request around the caller's own parameter
  object, which it also edits, and to send the preset entries on the wire.

`Wrappers.dfy` holds `Option` and `Result`.

The code is followed as written in several places:
- The start position is sent under the `bencode` key `rstart-pos`, while its `json` tag is
  `start-pos`.
- The RTCP totals are read under the `json` tag `RCTP`.
- The command list includes `connect`.
- `ProfilerRTP_UDP_Answer` writes the transport protocol, ICE and DTLS through the caller's
  pointer, so all three edits reach the caller.

## Model

| member | source | states |
|---|---|---|
| Vocabulary.Prefixed | ng_protocol.go:202-212 | one derived token per item, in item order: token i is the prefix followed by item i |
| Vocabulary.PrefixedAppend | ng_protocol.go:202-212 | deriving tokens for two lists one after the other gives the two derived lists concatenated |
| Vocabulary.PrefixedExcludes | variables.go:433-479 | an item missing from the list has no derived token among the prefixed tokens |
| Vocabulary.TransportProtocolsDistinct | variables.go:34-52 | there are six transport protocols, pairwise distinct |
| Vocabulary.CommandsDistinct | variables.go:57-135 | there are 26 commands, pairwise distinct; the multi-word ones such as "start recording" keep their space |
| Vocabulary.ModesDistinct | variables.go:486-501 | the tokens of each of the ICE, DTLS, RTCP-mux, OSRTP and record domains are pairwise distinct |
| Vocabulary.DtlsFingerprintsAreHashes | variables.go:596-611 | the DTLS fingerprint tokens coincide one for one, in order, with the DTLS hash tokens |
| Vocabulary.SdesNoFamily | variables.go:659-670 | the twelve "no-" SDES constants are "no-" followed by the crypto suite at the same position, for all twelve suites |
| Vocabulary.SdesOnlyFamily | variables.go:673-684 | the twelve "only-" SDES constants are "only-" followed by the crypto suite at the same position, for all twelve suites |
| Vocabulary.CodecExceptStripFamilies | variables.go:380-431 | each of the nine codec-except flags, and each of the nine codec-strip flags, is its prefix followed by the codec token at the same position, for all nine codecs in codec order |
| Vocabulary.CodecMaskFamily | variables.go:433-455 | the mask flags cover the eight codecs after PCMU, in codec order, with no mask flag for PCMU |
| Vocabulary.CodecTranscodeFamily | variables.go:457-479 | the transcode flags cover the eight codecs after PCMU, in codec order, with no transcode flag for PCMU |
| Bencode.NatToString | rtpengine.go:460 | the decimal numeral of a natural number is canonical and denotes that number |
| Bencode.IntToString | rtpengine.go:460 | a negative integer is written as "-" followed by a numeral with no leading zero |
| Bencode.Encode | rtpengine.go:460 | an encoding is never empty and never starts with the list terminator |
| Bencode.ParseDict | rtpengine.go:497 | a body is accepted exactly when it is one dictionary; the entries read are that dictionary's |
| Bencode.LookupLastWins | rtpengine.go:503-510 | when a key occurs more than once, the last entry carrying it is what a lookup finds |
| Bencode.LookupUnique | rtpengine.go:503-510 | an entry whose key no other entry carries is what a lookup finds |
| Bencode.LookupNone | rtpengine.go:503-510 | a lookup finds nothing exactly when no entry carries the key |
| Bencode.NumeralRoundTrip | rtpengine.go:460 | a written numeral reads back as its value, leaving what follows |
| Bencode.StringRoundTrip | rtpengine.go:460 | an encoded byte string reads back exactly, leaving what follows |
| Bencode.IntRoundTrip | rtpengine.go:460 | an encoded integer of any sign reads back exactly, leaving what follows |
| Bencode.RoundTrip | rtpengine.go:460 | parsing inverts encoding for every value, leaving what follows |
| Bencode.DictRoundTrip | rtpengine.go:460 | an encoded dictionary on its own is read back as a whole body, entries in order |
| Bencode.CanonicalNumeral | rtpengine.go:497 | reading a canonical numeral and writing its value back gives the same numeral |
| Bencode.IntSound | rtpengine.go:497 | whatever integer text the parser accepts is the encoding of the integer it reads |
| Bencode.StringSound | rtpengine.go:497 | whatever byte-string text the parser accepts is the encoding of the string it reads |
| Bencode.ValueSound | rtpengine.go:497 | the parser accepts nothing but encodings: what it consumes is exactly the encoding of the value it returns |
| Bencode.ListSound | rtpengine.go:497 | the list items the parser accepts are exactly the encoding of the items read |
| Bencode.EntriesSound | rtpengine.go:497 | the dictionary entries the parser accepts are exactly the encoding of the entries read |
| Bencode.DictExact | rtpengine.go:497 | a body parses to a given entry list if and only if it is that dictionary's encoding |
| RtpEngine.Ptr.constructor | rtpengine.go:51-56 | a fresh pointer cell holds the given aggregate |
| RtpEngine.RequestRtp.constructor | rtpengine.go:51-56 | a request holds its command and the three given aggregate pointers, not copies |
| RtpEngine.RequestRtp.Value | rtpengine.go:51-56 | the contents of a request: its command and the values its three pointers currently reach |
| RtpEngine.Failure | rtpengine.go:482-494 | a local failure has result "error" and the given reason, every other field zero |
| RtpEngine.SectionsDictSendsPresentSections | rtpengine.go:302-307 | an `sdp-attr` dictionary sends each present section's edits under the section's name, nothing for a nil section, and no key but audio, global, none and video |
| RtpEngine.CommandsDictSendsNonEmptyLists | rtpengine.go:319-323 | the edits of a section send add, remove and substitute each exactly when that list is not empty, with its items in order, and no other key or empty list |
| RtpEngine.MohDictSendsNonEmptyFields | rtpengine.go:336-342 | a music-on-hold source sends each of file, blob, db-id, mode and connection exactly when it is not empty, with its value, and no other key or empty string |
| RtpEngine.Wire | rtpengine.go:52 | omitempty: a field is dropped exactly when it is empty or zero; what is sent is never an empty value, except the command, sent always |
| RtpEngine.StringPosition | rtpengine.go:175-219 | every string parameter has a place in the dictionary |
| RtpEngine.IntPosition | rtpengine.go:241-256 | every integer parameter has a place in the dictionary |
| RtpEngine.ArrayPosition | rtpengine.go:276-288 | every list parameter has a place in the dictionary |
| RtpEngine.Position | rtpengine.go:51-56 | every parameter of the flattened request, the command included, has a place in the dictionary |
| RtpEngine.MarshalRequest | rtpengine.go:460 | marshalling a request succeeds, and the body parses back as exactly the request dictionary |
| RtpEngine.Frame | rtpengine.go:459-467 | on success the frame is the cookie, one space and the body, nothing else; on failure it is the error alone |
| RtpEngine.EncodeComando | rtpengine.go:459-467 | every request is framed: the cookie, one space, and a body that parses back as exactly the request dictionary |
| RtpEngine.FrameOfFailedMarshal | rtpengine.go:460-463 | a failed marshal yields the error and no bytes, not even the cookie |
| RtpEngine.IndexOfSpace | rtpengine.go:482 | -1 exactly when there is no space; otherwise the index of the first space |
| RtpEngine.SentFrom | rtpengine.go:51-56 | `Entries`, the flattened request: every entry sent is a parameter's tag with that parameter's non-omitted wire value |
| RtpEngine.SentKeeps | rtpengine.go:51-56 | `Entries`, the flattened request: every parameter whose value is not omitted is sent under its tag |
| RtpEngine.OnlyCommandMandatory | rtpengine.go:52 | the command is the one field sent without omitempty |
| RtpEngine.CommandAlwaysSent | rtpengine.go:52 | the dictionary always holds "command" with the request's command, whatever it is |
| RtpEngine.NothingEmptySent | rtpengine.go:176-287 | no entry other than the command carries an empty string, a zero or an empty list |
| RtpEngine.EmptyRequestSendsOnlyCommand | rtpengine.go:51-56 | a request with all parameters empty sends its command and nothing else |
| RtpEngine.EmptyFieldOmitted | rtpengine.go:176-287 | in a request with no parameters set, every field but the command is omitted |
| RtpEngine.StartPosTag | rtpengine.go:255 | only the start position is tagged "rstart-pos", and no parameter is tagged "start-pos" |
| RtpEngine.StartPosKey | rtpengine.go:255 | the start position is sent under "rstart-pos" exactly when it is not zero, with its value; nothing is ever sent under "start-pos" |
| RtpEngine.StartPosSent | rtpengine.go:255 | a non-zero start position is sent under "rstart-pos" |
| RtpEngine.StrsOf | rtpengine.go:503-510 | a decoded string list has one element per item; an item that is not a string decodes to "" |
| RtpEngine.DecodeResposta | rtpengine.go:480-511 | a frame whose first space is not right after the cookie length is "Failed to parse the message"; a wrong cookie of the right length is "Cookie mismatch" |
| RtpEngine.CookieWithSpaceNeverAccepted | rtpengine.go:482-494 | with a cookie that contains a space, every response is one of the two local failures |
| RtpEngine.OwnFrameAccepted | rtpengine.go:482-501 | a frame carrying the expected space-free cookie passes both checks, and decoding continues with the body alone |
| RtpEngine.BadBodyGivesZeroResponse | rtpengine.go:496-501 | after valid framing, a body that is not one dictionary gives the zero response, with empty result and error reason |
| RtpEngine.OwnCookieRoundTrip | rtpengine.go:465 | decoding a request's own frame with its cookie passes both checks and maps the request dictionary itself |
| RtpEngine.OtherCookieMismatch | rtpengine.go:489-494 | the same frame decoded with another space-free cookie of equal length is "Cookie mismatch" |
| RtpEngine.ResponseValues | rtpengine.go:79-94 | a response has one wire value per known json key |
| RtpEngine.StrsOfStrList | rtpengine.go:503-510 | a list of strings decodes back to itself |
| RtpEngine.ValuesRoundTrip | rtpengine.go:119-123 | the packet counters read back from their own dictionary |
| RtpEngine.TotalsRoundTrip | rtpengine.go:105-108 | RTP and RTCP totals read back from their own dictionary |
| RtpEngine.FieldsRoundTrip | rtpengine.go:503-510 | `DecodeFields`, the json mapping: it reads back every field of a response from its own dictionary |
| RtpEngine.ResponseRoundTrip | rtpengine.go:480-511 | any response framed with a space-free cookie decodes, with that cookie, to itself field for field |
| RtpEngine.UnknownKeysDecodeToZero | rtpengine.go:503-510 | `DecodeFields`, the json mapping: a dictionary with no known key decodes to the zero response |
| RtpEngine.RtcpTotalsReadOnlyAsRctp | rtpengine.go:107 | RTCP counters under the key "RTCP" are ignored; only the json tag "RCTP" fills them |
| NgProtocol.OptionError | ng_protocol.go:123-591 | no setter ever reports an error; only a failing caller option does, with its own error |
| NgProtocol.PrefixEach | ng_protocol.go:202-212 | the loop builds exactly the derived token list, one per item, in order |
| NgProtocol.ApplyToStrings | ng_protocol.go:143-148 | a string setter edits the shared string parameters in place, as its pure effect describes |
| NgProtocol.ApplyToInts | ng_protocol.go:441-466 | an integer setter edits the integer parameters in place, as its pure effect describes |
| NgProtocol.ApplyToArrays | ng_protocol.go:123-128 | a list setter edits the list parameters in place, as its pure effect describes |
| NgProtocol.Apply | ng_protocol.go:40-44 | runs one option on the request: the error it reports, and the edit, made only when there is no error |
| NgProtocol.Build | ng_protocol.go:32-46 | the request holds the command, the caller's string object and fresh aggregates, and its contents are those the options reach; on the first error it returns no request and that error, leaving earlier edits in the caller's object |
| NgProtocol.SdpOffering | ng_protocol.go:32-46 | Build with the command "offer" |
| NgProtocol.SdpAnswer | ng_protocol.go:63-77 | Build with the command "answer" |
| NgProtocol.SdpDelete | ng_protocol.go:94-108 | Build with the command "delete" |
| NgProtocol.RunAppend | ng_protocol.go:40-44 | `Run`, the fail-fast loop: running two option lists one after the other is running their concatenation, unless the first stops at an error |
| NgProtocol.StandardOptionsNeverFail | ng_protocol.go:40-44 | `Run`, the fail-fast loop: a list of setters always runs to its end without an error |
| NgProtocol.RunStopsAtFirstError | ng_protocol.go:40-44 | `Run`, the fail-fast loop: the first failing option ends the run with its error; later options are not run, and the contents are those reached before it |
| NgProtocol.RunKeepsCommand | ng_protocol.go:40-44 | `Run`, the fail-fast loop: no option changes the command |
| NgProtocol.StringOptionFrame | ng_protocol.go:143-571 | `StringsApplied`, the string setters: each changes only its own string parameter |
| NgProtocol.IntOptionFrame | ng_protocol.go:441-466 | `IntsApplied`, the integer setters: each changes only its own integer parameter |
| NgProtocol.ArrayOptionFrame | ng_protocol.go:123-591 | `ArraysApplied`, the list setters: each changes only its own list parameter |
| NgProtocol.OnlyTargetChanges | ng_protocol.go:123-591 | `Applied`, one option's effect: it changes its own parameter and no other, and never the command |
| NgProtocol.StringOptionOverwrites | ng_protocol.go:365-386 | `StringsApplied`: a string setter leaves its parameter holding the value it writes, whatever was there before |
| NgProtocol.ArrayOptionOverwrites | ng_protocol.go:163-187 | `ArraysApplied`: SetReplace, SetRtcpMux and SetReceivedFrom leave their list independent of what it held before |
| NgProtocol.OverwriteForgetsOldValue | ng_protocol.go:163-187 | each overwriting option leaves its parameter with a value that does not depend on the old value |
| NgProtocol.LaterStringOptionWins | ng_protocol.go:518-571 | of two string setters on the same parameter, the later one wins |
| NgProtocol.LaterArrayOptionWins | ng_protocol.go:163-187 | of two replacing list setters on the same list, the later one wins |
| NgProtocol.LaterOverwriteWins | ng_protocol.go:365-386 | running two overwriting options on the same parameter is running the later one alone |
| NgProtocol.SetFlagsAppends | ng_protocol.go:123-128 | SetFlags puts the given flags after the existing ones, in their order |
| NgProtocol.CodecOptionAppends | ng_protocol.go:202-287 | a codec setter adds one "codec-op-" flag per codec, in the codecs' order, after the existing flags |
| NgProtocol.SdesOptionsAppend | ng_protocol.go:320-353 | DeleteSDES and EnableSDES add "no-" or "only-" plus the suite, one per suite in order, after the existing entries |
| NgProtocol.DisablesSdesAppendsOff | ng_protocol.go:298-305 | DisablesSDES adds exactly one "off" after the existing entries |
| NgProtocol.ReceivedFromIsPair | ng_protocol.go:481-487 | after SetReceivedFrom(af, addr) the received-from list is exactly [af, addr] |
| NgProtocol.SetMohFileAppends | ng_protocol.go:586-591 | SetMohFile adds one source, the file in mode "sendonly" with its other fields empty, and keeps earlier sources |
| NgProtocol.PtimeTargets | ng_protocol.go:441-466 | `IntsApplied`: SetPtimeCodecOffer writes "ptime" and SetPtimeCodecAnswer writes "ptime-reverse" |
| NgProtocol.MaskAndTranscodeFamilies | ng_protocol.go:202-237 | masking or transcoding every codec after PCMU adds exactly the mask or transcode flag family |
| NgProtocol.StripAndExceptFamilies | ng_protocol.go:252-287 | stripping or excepting every codec adds exactly the strip or except flag family |
| NgProtocol.SdesFamilies | ng_protocol.go:320-353 | deleting or enabling every crypto suite adds exactly the "no-" or "only-" SDES family |
| SdpAnswerPreset.ProfilerRtpUdpAnswer | sdp_answer.go:3-32 | the request holds the command, the caller's own string object and fresh aggregates; the caller's object gets RTP/AVP, ICE "remove" and DTLS "off", and the contents are the preset's |
| SdpAnswerPreset.AnswerPresetContents | sdp_answer.go:4-29 | `AnswerPreset`, the preset's contents: it holds the command and the caller's strings with transport, ICE and DTLS replaced; no integer parameter; rtcp-mux [demux], replace [session-connection, origin], flags [strip-extmap, no-rtcp-attribute], SDES [prefer] |
| SdpAnswerPreset.AnswerPresetSends | sdp_answer.go:12-29 | on the wire the preset sends its command, RTP/AVP, ICE "remove", DTLS "off" and its four lists, each in its order |
| SdpAnswerPreset.AnswerPresetSendsNoInts | sdp_answer.go:7 | the preset sends no integer parameter |

## Left out

- `Engine.Conn` and `Engine.ConnUDP` (rtpengine.go:403-445) are not modelled. They dial
  sockets and set read deadlines, which is network I/O.
- `GetCookie` (rtpengine.go:351-353) draws a random UUID. The cookie is a parameter of every
  operation instead.
- The getters (rtpengine.go:361-394) return fields unchanged and are not modelled.
- client.go is not part of this model. It resolves host names through the network.
- The test files are not part of this model. They exchange messages with a live server.
- sdp_defines.go and sdp_offer.go are not part of this model. They are earlier revisions of
  the same declarations, with stale tags.
- Sending a request and waiting for the answer, with its timeout, is not part of this model.
  It is I/O and is not in these files.
- The `SSRC` and `tags` response fields (rtpengine.go:88-89) are not modelled. They have
  Go type `interface{}`, and their payloads are opaque.
- Bencode library internals are not modelled. A small encoder and parser stand in for the
  anacrolix marshaller and the stefanovazzocell parser. They cover the four kinds of value
  that appear here.
  - Dictionary keys are written in the order of the sorted Go tags, in the request and in
    the nested `sdp-attr` and music-on-hold dictionaries. The model lists that order but
    does not prove it sorted.
  - The parser accepts any key order.
  - When a key repeats, the last entry wins on lookup.
- `mapstructure`'s case-insensitive key fallback is not modelled. Keys match json tags
  exactly. A value of the wrong kind leaves its field at zero, and a list element that is
  not a string decodes to "".
- Integers are unbounded. Go's `int` width and overflow are not modelled.
- Bytes are modelled as characters, one per byte.
- A nil aggregate pointer is not represented: every `RequestRtp` here holds three objects.
  On the wire a nil aggregate encodes like the all-empty aggregate (`EmptyStrings`,
  `EmptyInts`, `EmptyArrays`), since every field of it would be omitted. The panic that Go
  raises when a setter or `ProfilerRTP_UDP_Answer` writes through a nil `parametros`
  (ng_protocol.go:35, 66, 97; sdp_answer.go:6) is not modelled.
- RtpEngine.MarshalRequest: never fails, because these records always marshal. The error
  branch of `EncodeComando` is modelled by `Frame` over a failed marshal outcome.
- A Go option is a closure. Here it is a datatype value, one constructor per setter. A
  caller's own option that returns an error is the constructor `Failing`, which reports its
  error without editing the request.
- NgProtocol.ApplyToStrings: `SetAttrChange` stores the caller's pointer. The model stores
  the value it points to, so edits the caller makes to that value afterwards are not
  modelled.
- NgProtocol.ApplyToArrays: `SetReplace` and `SetRtcpMux` (ng_protocol.go:163-168, 182-187)
  store the caller's slice itself. The model stores its value, so later writes through a
  shared backing array are not modelled.
- SdpAnswerPreset.ProfilerRtpUdpAnswer: in Go, `string(RTP_AVP)` is assigned to a field
  declared with a named type. The model stores the string "RTP/AVP".
- The `bencode` tag "RTP" that `TotalRTP.Rtcp` repeats (rtpengine.go:107) matters only when
  this client encodes totals, and it never does.
