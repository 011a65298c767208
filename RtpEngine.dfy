/** The NG protocol message layer of rtpengine.go: the request and response records, the
    flattening of a request into one bencoded dictionary, the framing `cookie + " " + body`
    of EncodeComando, and the checks and field mapping of DecodeResposta.

    The Go request embeds three parameter aggregates by pointer; their fields are flattened
    into one dictionary under their `bencode` tag names, sorted by key, each left out when it
    holds its zero value (`omitempty`), and `command` always present. A response is decoded
    by its `json` tag names. */
module RtpEngine {
  import opened Wrappers
  import opened Vocabulary
  import opened Bencode

  // ---- Records ----

  /** Attribute edits for one SDP section. */
  datatype ParamsSdpAttrCommands = ParamsSdpAttrCommands(
    add: seq<string>,
    remove: seq<string>,
    substitute: seq<seq<string>>)

  /** Attribute edits per SDP section; an absent section is a nil pointer. */
  datatype ParamsSdpAttrSections = ParamsSdpAttrSections(
    global: Option<ParamsSdpAttrCommands>,
    audio: Option<ParamsSdpAttrCommands>,
    video: Option<ParamsSdpAttrCommands>,
    none: Option<ParamsSdpAttrCommands>)

  /** One music-on-hold source. */
  datatype ParamMoh = ParamMoh(
    file: string,
    blob: string,
    dbId: string,
    mode: string,
    connection: Connection)

  /** The string-valued request parameters, in declaration order. */
  datatype ParamsOptString = ParamsOptString(
    fromTag: string,
    toTag: string,
    callId: string,
    transportProtocol: TransportProtocol,
    mediaAddress: string,
    ice: Ice,
    addressFamily: AddressFamily,
    dtls: Dtls,
    viaBranch: string,
    xmlrpcCallback: string,
    metadata: string,
    file: string,
    code: string,
    dtlsFingerprint: DtlsFingerprint,
    iceLite: string,
    mediaEcho: string,
    labelName: string,  // the Go field `Label`; `label` is a Dafny keyword
    setLabel: string,
    fromLabel: string,
    toLabel: string,
    dtmfSecurity: string,
    digit: string,
    dtmfSecurityTrigger: string,
    dtmfSecurityTriggerEnd: string,
    trigger: string,
    triggerEnd: string,
    all: string,
    frequency: string,
    blob: string,
    sdp: string,
    audioPlayer: string,
    dtmfLogDest: string,
    outputDestination: string,
    vscStartRec: string,
    vscStopRec: string,
    vscPauseRec: string,
    vscStartStopRec: string,
    vscPauseResumeRec: string,
    vscStartPauseResumeRec: string,
    rtppFlags: string,
    sdpAttr: Option<ParamsSdpAttrSections>,
    template: string,
    recordCall: Record)

  /** The integer-valued request parameters, in declaration order. */
  datatype ParamsOptInt = ParamsOptInt(
    tos: int,
    deleteDelay: int,
    delayBuffer: int,
    volume: int,
    triggerEndTime: int,
    triggerEndDigits: int,
    dtmfDelay: int,
    ptime: int,
    ptimeReverse: int,
    dbId: int,
    duration: int,
    repeatTimes: int,
    repeatDuration: int,
    startPos: int)

  /** The list-valued request parameters, in declaration order. */
  datatype ParamsOptStringArray = ParamsOptStringArray(
    flags: seq<ParamFlag>,
    rtcpMux: seq<RtcpMux>,
    sdes: seq<Sdes>,
    supports: seq<string>,
    t38: seq<string>,
    osrtp: seq<Osrtp>,
    receivedFrom: seq<string>,
    fromTags: seq<string>,
    frequencies: seq<string>,
    replace: seq<ParamReplace>,
    moh: seq<ParamMoh>)

  /** The contents of a request: its command and the three parameter aggregates. */
  datatype Request = Request(
    command: string,
    strs: ParamsOptString,
    ints: ParamsOptInt,
    arrays: ParamsOptStringArray)

  const EmptyStrings: ParamsOptString :=
    ParamsOptString("", "", "", "", "", "", "", "", "", "", "", "", "", "", "", "", "", "",
                    "", "", "", "", "", "", "", "", "", "", "", "", "", "", "", "", "", "",
                    "", "", "", "", None, "", "")

  const EmptyInts: ParamsOptInt := ParamsOptInt(0, 0, 0, 0, 0, 0, 0, 0, 0, 0, 0, 0, 0, 0)

  const EmptyArrays: ParamsOptStringArray :=
    ParamsOptStringArray([], [], [], [], [], [], [], [], [], [], [])

  /** Per-stream packet statistics. */
  datatype ValuesRtp = ValuesRtp(packets: int, bytes: int, errors: int)

  /** Statistics of the RTP and RTCP streams. */
  datatype TotalRtp = TotalRtp(rtp: ValuesRtp, rtcp: ValuesRtp)

  /** A decoded response. The opaque `SSRC` and `tags` payloads are not part of this model. */
  datatype ResponseRtp = ResponseRtp(
    result: string,
    sdp: string,
    errorReason: string,
    warning: string,
    created: int,
    createdUs: int,
    lastSignal: int,
    lastRedisUpdate: int,
    fromTag: string,
    fromTags: seq<string>,
    toTag: string,
    totals: TotalRtp)

  const ZeroValues: ValuesRtp := ValuesRtp(0, 0, 0)

  /** The zero response: what `&ResponseRtp{}` holds before anything is filled in. */
  const ZeroResponse: ResponseRtp :=
    ResponseRtp("", "", "", "", 0, 0, 0, 0, "", [], "", TotalRtp(ZeroValues, ZeroValues))

  /** A response that reports a local failure with the given reason. */
  function Failure(reason: string): (r: ResponseRtp)
    ensures r.result == "error" && r.errorReason == reason
    ensures r.(result := "", errorReason := "") == ZeroResponse
  {
    ZeroResponse.(result := "error", errorReason := reason)
  }

  // ---- Objects ----

  /** A heap cell: the Go pointer through which each parameter aggregate is shared. */
  class Ptr<T> {
    var val: T

    constructor(v: T)
      ensures val == v
    {
      val := v;
    }
  }

  /** A request under construction: the command and the three embedded aggregates, each
      reached through its own pointer, so that whoever holds the pointer sees every edit. */
  class RequestRtp {
    const command: string
    const strs: Ptr<ParamsOptString>
    const ints: Ptr<ParamsOptInt>
    const arrays: Ptr<ParamsOptStringArray>

    /** The request's contents at this moment. */
    function Value(): (v: Request)
      reads strs, ints, arrays
      ensures v.command == command && v.strs == strs.val
      ensures v.ints == ints.val && v.arrays == arrays.val
    {
      Request(command, strs.val, ints.val, arrays.val)
    }

    constructor(command: string, strs: Ptr<ParamsOptString>, ints: Ptr<ParamsOptInt>,
                arrays: Ptr<ParamsOptStringArray>)
      ensures this.command == command && this.strs == strs
      ensures this.ints == ints && this.arrays == arrays
    {
      this.command := command;
      this.strs := strs;
      this.ints := ints;
      this.arrays := arrays;
    }
  }

  // ---- Flattening a request (omitempty) ----

  /** A wire value that `omitempty` never sends: the empty string, zero, the empty list. */
  predicate Omittable(v: BValue)
  {
    v == BStr("") || v == BInt(0) || v == BList([])
  }

  function StrList(items: seq<string>): (r: seq<BValue>)
    ensures |r| == |items| && forall i :: 0 <= i < |items| ==> r[i] == BStr(items[i])
  {
    if items == [] then [] else [BStr(items[0])] + StrList(items[1..])
  }

  /** The wire value of a nested string field: none when it is empty (`omitempty`). */
  function TextValue(v: string): (r: Option<BValue>)
    ensures r.None? <==> v == ""
    ensures r.Some? ==> r.value == BStr(v)
  {
    if v == "" then None else Some(BStr(v))
  }

  /** The wire values of a row of nested string fields. */
  function TextValues(ts: seq<string>): (r: seq<Option<BValue>>)
    ensures |r| == |ts| && forall i :: 0 <= i < |ts| ==> r[i] == TextValue(ts[i])
  {
    if ts == [] then [] else [TextValue(ts[0])] + TextValues(ts[1..])
  }

  /** The wire value of a nested list field: none when it is empty (`omitempty`). */
  function ListValue(v: seq<string>): (r: Option<BValue>)
    ensures r.None? <==> v == []
    ensures r.Some? ==> r.value == BList(StrList(v))
  {
    if v == [] then None else Some(BList(StrList(v)))
  }

  function ListsOf(items: seq<seq<string>>): (r: seq<BValue>)
    ensures |r| == |items| && forall i :: 0 <= i < |items| ==> r[i] == BList(StrList(items[i]))
  {
    if items == [] then [] else [BList(StrList(items[0]))] + ListsOf(items[1..])
  }

  /** The entries of a nested dictionary: each key with the value at the same place, in
      order, a key whose value is omitted left out. */
  function Fields(keys: seq<string>, vals: seq<Option<BValue>>): seq<Entry>
    requires |keys| == |vals|
  {
    if keys == [] then []
    else (if vals[0].Some? then [Entry(keys[0], vals[0].value)] else []) + Fields(keys[1..], vals[1..])
  }

  /** The `bencode` tags of ParamsSdpAttrCommands, sorted. */
  const CommandKeys: seq<string> := ["add", "remove", "substitute"]

  /** The edits of one SDP section as a dictionary, empty lists left out. */
  function CommandsDict(c: ParamsSdpAttrCommands): BValue
  {
    BDict(Fields(CommandKeys,
                 [ListValue(c.add), ListValue(c.remove),
                  if c.substitute == [] then None else Some(BList(ListsOf(c.substitute)))]))
  }

  /** The wire value of one section of an `sdp-attr` parameter: none for a nil section. */
  function SectionValue(c: Option<ParamsSdpAttrCommands>): Option<BValue>
  {
    match c
    case None => None
    case Some(cmds) => Some(CommandsDict(cmds))
  }

  /** The `bencode` tags of ParamsSdpAttrSections, sorted. */
  const SectionKeys: seq<string> := ["audio", "global", "none", "video"]

  /** The sections of an `sdp-attr` parameter as a dictionary, nil sections left out. */
  function SectionsDict(s: ParamsSdpAttrSections): BValue
  {
    BDict(Fields(SectionKeys,
                 [SectionValue(s.audio), SectionValue(s.global), SectionValue(s.none),
                  SectionValue(s.video)]))
  }

  /** The `bencode` tags of ParamMoh, sorted. */
  const MohKeys: seq<string> := ["blob", "connection", "db-id", "file", "mode"]

  /** One music-on-hold source as a dictionary, empty fields left out. */
  function MohDict(m: ParamMoh): BValue
  {
    BDict(Fields(MohKeys, TextValues([m.blob, m.connection, m.dbId, m.file, m.mode])))
  }

  function MohList(ms: seq<ParamMoh>): (r: seq<BValue>)
    ensures |r| == |ms| && forall i :: 0 <= i < |ms| ==> r[i] == MohDict(ms[i])
  {
    if ms == [] then [] else [MohDict(ms[0])] + MohList(ms[1..])
  }

  /** The value of one request field, by the kind of its Go type. */
  datatype FieldValue =
    | Text(text: string)
    | Number(number: int)
    | Texts(texts: seq<string>)
    | MohSources(sources: seq<ParamMoh>)
    | SdpAttrEdits(edits: Option<ParamsSdpAttrSections>)
    | CommandName(name: string)

  /** What `omitempty` puts on the wire for a field: nothing for the empty string, zero,
      an empty list or a nil pointer. The command is the one field without `omitempty`. */
  function Wire(f: FieldValue): (r: Option<BValue>)
    ensures r.None? <==> (f.Text? && f.text == "") || (f.Number? && f.number == 0)
                         || (f.Texts? && f.texts == []) || (f.MohSources? && f.sources == [])
                         || (f.SdpAttrEdits? && f.edits.None?)
    ensures r.Some? && !f.CommandName? ==> !Omittable(r.value)
    ensures f.CommandName? ==> r == Some(BStr(f.name))
  {
    match f
    case Text(t) => if t == "" then None else Some(BStr(t))
    case Number(n) => if n == 0 then None else Some(BInt(n))
    case Texts(ts) => if ts == [] then None else Some(BList(StrList(ts)))
    case MohSources(ms) => if ms == [] then None else Some(BList(MohList(ms)))
    case SdpAttrEdits(e) => if e.None? then None else Some(SectionsDict(e.value))
    case CommandName(c) => Some(BStr(c))
  }

  /** A parameter of ParamsOptString, named as its Go field, in declaration order. */
  datatype StringParam
    = FromTag | ToTag | CallId | TransportProtocol | MediaAddress | ICE | AddressFamily
    | DTLS | ViaBranch | XmlrpcCallback | Metadata | File | Code | DTLSFingerprint
    | ICELite | MediaEcho | Label | SetLabel | FromLabel | ToLabel | DTMFSecurity | Digit
    | DTMFSecurityTrigger | DTMFSecurityTriggerEnd | Trigger | TriggerEnd | All | Frequency
    | Blob | Sdp | AudioPlayer | DTMFLogDest | OutputDestination | VscStartRec | VscStopRec
    | VscPauseRec | VscStartStopRec | VscPauseResumeRec | VscStartPauseResumeRec
    | RtppFlags | SdpAttr | Template | RecordCall

  /** A parameter of ParamsOptInt, named as its Go field, in declaration order. */
  datatype IntParam
    = TOS | DeleteDelay | DelayBuffer | Volume | TriggerEndTime | TriggerEndDigits
    | DTMFDelay | Ptime | PtimeReverse | DbId | Duration | RepeatTimes | RepeatDuration
    | StartPos

  /** A parameter of ParamsOptStringArray, named as its Go field, in declaration order. */
  datatype ArrayParam
    = Flags | RtcpMux | SDES | Supports | T38 | OSRTP | ReceivedFrom | FromTags
    | Frequencies | Replace | Moh

  /** A request parameter: the command, a field of the request itself, or a field of one of
      the three embedded aggregates. */
  datatype Param = Command | OfStrings(s: StringParam) | OfInts(n: IntParam) | OfArrays(a: ArrayParam)

  /** The `bencode` tag of a string parameter. */
  function StringTag(f: StringParam): string
  {
    match f
    case FromTag => "from-tag"
    case ToTag => "to-tag"
    case CallId => "call-id"
    case TransportProtocol => "transport-protocol"
    case MediaAddress => "media-address"
    case ICE => "ICE"
    case AddressFamily => "address-family"
    case DTLS => "DTLS"
    case ViaBranch => "via-branch"
    case XmlrpcCallback => "xmlrpc-callback"
    case Metadata => "metadata"
    case File => "file"
    case Code => "code"
    case DTLSFingerprint => "DTLS-fingerprint"
    case ICELite => "ICE-lite"
    case MediaEcho => "media-echo"
    case Label => "label"
    case SetLabel => "set-label"
    case FromLabel => "from-label"
    case ToLabel => "to-label"
    case DTMFSecurity => "DTMF-security"
    case Digit => "digit"
    case DTMFSecurityTrigger => "DTMF-security-trigger"
    case DTMFSecurityTriggerEnd => "DTMF-security-trigger-end"
    case Trigger => "trigger"
    case TriggerEnd => "trigger-end"
    case All => "all"
    case Frequency => "frequency"
    case Blob => "blob"
    case Sdp => "sdp"
    case AudioPlayer => "audio-player"
    case DTMFLogDest => "dtmf-log-dest"
    case OutputDestination => "output-destination"
    case VscStartRec => "vsc-start-rec"
    case VscStopRec => "vsc-stop-rec"
    case VscPauseRec => "vsc-pause-rec"
    case VscStartStopRec => "vsc-start-stop-rec"
    case VscPauseResumeRec => "vsc-pause-resume-rec"
    case VscStartPauseResumeRec => "vsc-start-pause-resume-rec"
    case RtppFlags => "rtpp-flags"
    case SdpAttr => "sdp-attr"
    case Template => "template"
    case RecordCall => "record-call"
  }

  /** The `bencode` tag of a integer parameter. */
  function IntTag(f: IntParam): string
  {
    match f
    case TOS => "TOS"
    case DeleteDelay => "delete-delay"
    case DelayBuffer => "delay-buffer"
    case Volume => "volume"
    case TriggerEndTime => "trigger-end-time"
    case TriggerEndDigits => "trigger-end-digits"
    case DTMFDelay => "DTMF-delay"
    case Ptime => "ptime"
    case PtimeReverse => "ptime-reverse"
    case DbId => "db-id"
    case Duration => "duration"
    case RepeatTimes => "repeat-times"
    case RepeatDuration => "repeat-duration"
    case StartPos => "rstart-pos"
  }

  /** The `bencode` tag of a list parameter. */
  function ArrayTag(f: ArrayParam): string
  {
    match f
    case Flags => "flags"
    case RtcpMux => "rtcp-mux"
    case SDES => "SDES"
    case Supports => "supports"
    case T38 => "T38"
    case OSRTP => "OSRTP"
    case ReceivedFrom => "received-from"
    case FromTags => "from-tags"
    case Frequencies => "frequencies"
    case Replace => "replace"
    case Moh => "moh"
  }

  /** The `bencode` tag of a parameter: the dictionary key it is sent under. */
  function Tag(p: Param): string
  {
    match p
    case Command => "command"
    case OfStrings(f) => StringTag(f)
    case OfInts(f) => IntTag(f)
    case OfArrays(f) => ArrayTag(f)
  }

  /** The value of a string parameter; the SDP attribute edits are the one field that is a
      pointer rather than a string. */
  function StringValue(s: ParamsOptString, f: StringParam): (v: FieldValue)
    ensures v.Text? || v.SdpAttrEdits?
  {
    match f
    case FromTag => Text(s.fromTag)
    case ToTag => Text(s.toTag)
    case CallId => Text(s.callId)
    case TransportProtocol => Text(s.transportProtocol)
    case MediaAddress => Text(s.mediaAddress)
    case ICE => Text(s.ice)
    case AddressFamily => Text(s.addressFamily)
    case DTLS => Text(s.dtls)
    case ViaBranch => Text(s.viaBranch)
    case XmlrpcCallback => Text(s.xmlrpcCallback)
    case Metadata => Text(s.metadata)
    case File => Text(s.file)
    case Code => Text(s.code)
    case DTLSFingerprint => Text(s.dtlsFingerprint)
    case ICELite => Text(s.iceLite)
    case MediaEcho => Text(s.mediaEcho)
    case Label => Text(s.labelName)
    case SetLabel => Text(s.setLabel)
    case FromLabel => Text(s.fromLabel)
    case ToLabel => Text(s.toLabel)
    case DTMFSecurity => Text(s.dtmfSecurity)
    case Digit => Text(s.digit)
    case DTMFSecurityTrigger => Text(s.dtmfSecurityTrigger)
    case DTMFSecurityTriggerEnd => Text(s.dtmfSecurityTriggerEnd)
    case Trigger => Text(s.trigger)
    case TriggerEnd => Text(s.triggerEnd)
    case All => Text(s.all)
    case Frequency => Text(s.frequency)
    case Blob => Text(s.blob)
    case Sdp => Text(s.sdp)
    case AudioPlayer => Text(s.audioPlayer)
    case DTMFLogDest => Text(s.dtmfLogDest)
    case OutputDestination => Text(s.outputDestination)
    case VscStartRec => Text(s.vscStartRec)
    case VscStopRec => Text(s.vscStopRec)
    case VscPauseRec => Text(s.vscPauseRec)
    case VscStartStopRec => Text(s.vscStartStopRec)
    case VscPauseResumeRec => Text(s.vscPauseResumeRec)
    case VscStartPauseResumeRec => Text(s.vscStartPauseResumeRec)
    case RtppFlags => Text(s.rtppFlags)
    case SdpAttr => SdpAttrEdits(s.sdpAttr)
    case Template => Text(s.template)
    case RecordCall => Text(s.recordCall)
  }

  /** The value of an integer parameter. */
  function IntValue(n: ParamsOptInt, f: IntParam): int
  {
    match f
    case TOS => n.tos
    case DeleteDelay => n.deleteDelay
    case DelayBuffer => n.delayBuffer
    case Volume => n.volume
    case TriggerEndTime => n.triggerEndTime
    case TriggerEndDigits => n.triggerEndDigits
    case DTMFDelay => n.dtmfDelay
    case Ptime => n.ptime
    case PtimeReverse => n.ptimeReverse
    case DbId => n.dbId
    case Duration => n.duration
    case RepeatTimes => n.repeatTimes
    case RepeatDuration => n.repeatDuration
    case StartPos => n.startPos
  }

  /** The value of a list parameter. */
  function ArrayValue(a: ParamsOptStringArray, f: ArrayParam): (v: FieldValue)
    ensures v.Texts? || v.MohSources?
  {
    match f
    case Flags => Texts(a.flags)
    case RtcpMux => Texts(a.rtcpMux)
    case SDES => Texts(a.sdes)
    case Supports => Texts(a.supports)
    case T38 => Texts(a.t38)
    case OSRTP => Texts(a.osrtp)
    case ReceivedFrom => Texts(a.receivedFrom)
    case FromTags => Texts(a.fromTags)
    case Frequencies => Texts(a.frequencies)
    case Replace => Texts(a.replace)
    case Moh => MohSources(a.moh)
  }

  /** The current value of a parameter in a request. */
  function ValueOf(r: Request, p: Param): FieldValue
  {
    match p
    case Command => CommandName(r.command)
    case OfStrings(f) => StringValue(r.strs, f)
    case OfInts(f) => Number(IntValue(r.ints, f))
    case OfArrays(f) => ArrayValue(r.arrays, f)
  }

  /** The number of parameters a request dictionary can carry. */
  const ParamCount: nat := 69

  /** The parameter in place `i` of the marshalled dictionary: embedded aggregates are
      flattened into the request and their fields written in byte order of their tags. */
  function ParamAt(i: nat): Param
    requires i < ParamCount
  {
    if i < 18 then ParamAt0(i)
    else if i < 36 then ParamAt1(i)
    else if i < 54 then ParamAt2(i)
    else ParamAt3(i)
  }

  function ParamAt0(i: nat): Param
    requires i < 18
  {
    match i
    case 0 => OfStrings(DTLS)
    case 1 => OfStrings(DTLSFingerprint)
    case 2 => OfInts(DTMFDelay)
    case 3 => OfStrings(DTMFSecurity)
    case 4 => OfStrings(DTMFSecurityTrigger)
    case 5 => OfStrings(DTMFSecurityTriggerEnd)
    case 6 => OfStrings(ICE)
    case 7 => OfStrings(ICELite)
    case 8 => OfArrays(OSRTP)
    case 9 => OfArrays(SDES)
    case 10 => OfArrays(T38)
    case 11 => OfInts(TOS)
    case 12 => OfStrings(AddressFamily)
    case 13 => OfStrings(All)
    case 14 => OfStrings(AudioPlayer)
    case 15 => OfStrings(Blob)
    case 16 => OfStrings(CallId)
    case _ => OfStrings(Code)
  }

  function ParamAt1(i: nat): Param
    requires 18 <= i < 36
  {
    match i
    case 18 => Command
    case 19 => OfInts(DbId)
    case 20 => OfInts(DelayBuffer)
    case 21 => OfInts(DeleteDelay)
    case 22 => OfStrings(Digit)
    case 23 => OfStrings(DTMFLogDest)
    case 24 => OfInts(Duration)
    case 25 => OfStrings(File)
    case 26 => OfArrays(Flags)
    case 27 => OfArrays(Frequencies)
    case 28 => OfStrings(Frequency)
    case 29 => OfStrings(FromLabel)
    case 30 => OfStrings(FromTag)
    case 31 => OfArrays(FromTags)
    case 32 => OfStrings(Label)
    case 33 => OfStrings(MediaAddress)
    case 34 => OfStrings(MediaEcho)
    case _ => OfStrings(Metadata)
  }

  function ParamAt2(i: nat): Param
    requires 36 <= i < 54
  {
    match i
    case 36 => OfArrays(Moh)
    case 37 => OfStrings(OutputDestination)
    case 38 => OfInts(Ptime)
    case 39 => OfInts(PtimeReverse)
    case 40 => OfArrays(ReceivedFrom)
    case 41 => OfStrings(RecordCall)
    case 42 => OfInts(RepeatDuration)
    case 43 => OfInts(RepeatTimes)
    case 44 => OfArrays(Replace)
    case 45 => OfInts(StartPos)
    case 46 => OfArrays(RtcpMux)
    case 47 => OfStrings(RtppFlags)
    case 48 => OfStrings(Sdp)
    case 49 => OfStrings(SdpAttr)
    case 50 => OfStrings(SetLabel)
    case 51 => OfArrays(Supports)
    case 52 => OfStrings(Template)
    case _ => OfStrings(ToLabel)
  }

  function ParamAt3(i: nat): Param
    requires 54 <= i < ParamCount
  {
    match i
    case 54 => OfStrings(ToTag)
    case 55 => OfStrings(TransportProtocol)
    case 56 => OfStrings(Trigger)
    case 57 => OfStrings(TriggerEnd)
    case 58 => OfInts(TriggerEndDigits)
    case 59 => OfInts(TriggerEndTime)
    case 60 => OfStrings(ViaBranch)
    case 61 => OfInts(Volume)
    case 62 => OfStrings(VscPauseRec)
    case 63 => OfStrings(VscPauseResumeRec)
    case 64 => OfStrings(VscStartPauseResumeRec)
    case 65 => OfStrings(VscStartRec)
    case 66 => OfStrings(VscStartStopRec)
    case 67 => OfStrings(VscStopRec)
    case _ => OfStrings(XmlrpcCallback)
  }

  /** The place of a string parameter in the marshalled dictionary. */
  function StringPosition(f: StringParam): (i: nat)
    ensures i < ParamCount && ParamAt(i) == OfStrings(f)
  {
    match f
    case FromTag => 30
    case ToTag => 54
    case CallId => 16
    case TransportProtocol => 55
    case MediaAddress => 33
    case ICE => 6
    case AddressFamily => 12
    case DTLS => 0
    case ViaBranch => 60
    case XmlrpcCallback => 68
    case Metadata => 35
    case File => 25
    case Code => 17
    case DTLSFingerprint => 1
    case ICELite => 7
    case MediaEcho => 34
    case Label => 32
    case SetLabel => 50
    case FromLabel => 29
    case ToLabel => 53
    case DTMFSecurity => 3
    case Digit => 22
    case DTMFSecurityTrigger => 4
    case DTMFSecurityTriggerEnd => 5
    case Trigger => 56
    case TriggerEnd => 57
    case All => 13
    case Frequency => 28
    case Blob => 15
    case Sdp => 48
    case AudioPlayer => 14
    case DTMFLogDest => 23
    case OutputDestination => 37
    case VscStartRec => 65
    case VscStopRec => 67
    case VscPauseRec => 62
    case VscStartStopRec => 66
    case VscPauseResumeRec => 63
    case VscStartPauseResumeRec => 64
    case RtppFlags => 47
    case SdpAttr => 49
    case Template => 52
    case RecordCall => 41
  }

  /** The place of a integer parameter in the marshalled dictionary. */
  function IntPosition(f: IntParam): (i: nat)
    ensures i < ParamCount && ParamAt(i) == OfInts(f)
  {
    match f
    case TOS => 11
    case DeleteDelay => 21
    case DelayBuffer => 20
    case Volume => 61
    case TriggerEndTime => 59
    case TriggerEndDigits => 58
    case DTMFDelay => 2
    case Ptime => 38
    case PtimeReverse => 39
    case DbId => 19
    case Duration => 24
    case RepeatTimes => 43
    case RepeatDuration => 42
    case StartPos => 45
  }

  /** The place of a list parameter in the marshalled dictionary. */
  function ArrayPosition(f: ArrayParam): (i: nat)
    ensures i < ParamCount && ParamAt(i) == OfArrays(f)
  {
    match f
    case Flags => 26
    case RtcpMux => 46
    case SDES => 9
    case Supports => 51
    case T38 => 10
    case OSRTP => 8
    case ReceivedFrom => 40
    case FromTags => 31
    case Frequencies => 27
    case Replace => 44
    case Moh => 36
  }

  /** The place of a parameter in the marshalled dictionary; every parameter has one. */
  function Position(p: Param): (i: nat)
    ensures i < ParamCount && ParamAt(i) == p
  {
    match p
    case Command => 18
    case OfStrings(f) => StringPosition(f)
    case OfInts(f) => IntPosition(f)
    case OfArrays(f) => ArrayPosition(f)
  }

  /** The entry sent for the parameter in place `i`: none when `omitempty` drops it. */
  function EntryAt(r: Request, i: nat): Option<Entry>
  {
    if i < ParamCount then
      var p := ParamAt(i);
      match Wire(ValueOf(r, p))
      case None => None
      case Some(v) => Some(Entry(Tag(p), v))
    else None
  }

  /** The entries `f` yields for the places from `i` up to `n`, in order. */
  function Collect(f: nat -> Option<Entry>, i: nat, n: nat): seq<Entry>
    decreases n - i
  {
    if i >= n then []
    else (match f(i) case None => [] case Some(e) => [e]) + Collect(f, i + 1, n)
  }

  /** The request dictionary. */
  function Entries(r: Request): seq<Entry>
  {
    Collect((i: nat) => EntryAt(r, i), 0, ParamCount)
  }

  /** The bencoded request. Marshalling these records cannot fail, so it is always `Ok`. */
  function MarshalRequest(r: Request): (m: Result<string, string>)
    ensures m.Ok? && ParseDict(m.value) == Some(Entries(r))
  {
    DictRoundTrip(Entries(r));
    Ok(Encode(BDict(Entries(r))))
  }

  /** The outgoing frame for a marshalling outcome: on success the cookie, one space and
      the body and nothing else; on failure no bytes at all, only the error. */
  function Frame(cookie: string, marshalled: Result<string, string>): (r: Result<string, string>)
    ensures r.Ok? <==> marshalled.Ok?
    ensures r.Ok? ==> |r.value| == |cookie| + 1 + |marshalled.value|
                      && r.value[..|cookie|] == cookie && r.value[|cookie|] == ' '
                      && r.value[|cookie| + 1..] == marshalled.value
    ensures r.Err? ==> r.error == marshalled.error
  {
    match marshalled
    case Err(e) => Err(e)
    case Ok(data) =>
      var out := cookie + " " + data;
      assert out[..|cookie|] == cookie;
      assert out[|cookie| + 1..] == data;
      Ok(out)
  }

  /** `EncodeComando`: the frame is the cookie, one space, and a body that parses back as
      exactly the request dictionary, with nothing else. */
  function EncodeComando(cookie: string, command: Request): (r: Result<string, string>)
    ensures r.Ok? && |r.value| > |cookie|
    ensures r.value[..|cookie|] == cookie && r.value[|cookie|] == ' '
    ensures ParseDict(r.value[|cookie| + 1..]) == Some(Entries(command))
  {
    Frame(cookie, MarshalRequest(command))
  }

  // ---- Decoding a response ----

  /** The index of the first space, or -1 when there is none. */
  function IndexOfSpace(s: string): (r: int)
    ensures r == -1 <==> ' ' !in s
    ensures r != -1 ==> 0 <= r < |s| && s[r] == ' ' && ' ' !in s[..r]
  {
    if s == [] then -1
    else if s[0] == ' ' then 0
    else
      var k := IndexOfSpace(s[1..]);
      if k == -1 then -1
      else
        assert s[..k + 1] == [s[0]] + s[1..][..k];
        k + 1
  }

  function StrOf(v: Option<BValue>): string
  {
    match v
    case Some(BStr(s)) => s
    case _ => ""
  }

  function IntOf(v: Option<BValue>): int
  {
    match v
    case Some(BInt(i)) => i
    case _ => 0
  }

  /** A list of strings; an element that is not a string decodes to "". */
  function StrsOf(items: seq<BValue>): (r: seq<string>)
    ensures |r| == |items|
    ensures forall i :: 0 <= i < |items| ==> r[i] == (if items[i].BStr? then items[i].s else "")
  {
    if items == [] then [] else [StrOf(Some(items[0]))] + StrsOf(items[1..])
  }

  function StrListOf(v: Option<BValue>): seq<string>
  {
    match v
    case Some(BList(items)) => StrsOf(items)
    case _ => []
  }

  function ValuesOf(v: Option<BValue>): ValuesRtp
  {
    match v
    case Some(BDict(d)) =>
      ValuesRtp(IntOf(Lookup(d, "packets")), IntOf(Lookup(d, "bytes")), IntOf(Lookup(d, "errors")))
    case _ => ZeroValues
  }

  /** Totals are read under the keys "RTP" and "RCTP", the `json` tags of the record. */
  function TotalsOf(v: Option<BValue>): TotalRtp
  {
    match v
    case Some(BDict(d)) => TotalRtp(ValuesOf(Lookup(d, "RTP")), ValuesOf(Lookup(d, "RCTP")))
    case _ => TotalRtp(ZeroValues, ZeroValues)
  }

  /** A response dictionary mapped onto the record by `json` tag names: a missing key or a
      value of the wrong kind leaves the field at its zero value. */
  function DecodeFields(d: seq<Entry>): ResponseRtp
  {
    ResponseRtp(
      StrOf(Lookup(d, "result")),
      StrOf(Lookup(d, "sdp")),
      StrOf(Lookup(d, "error-reason")),
      StrOf(Lookup(d, "warning")),
      IntOf(Lookup(d, "created")),
      IntOf(Lookup(d, "created_us")),
      IntOf(Lookup(d, "last signal")),
      IntOf(Lookup(d, "last redis update")),
      StrOf(Lookup(d, "from-tag")),
      StrListOf(Lookup(d, "from-tags")),
      StrOf(Lookup(d, "to-tag")),
      TotalsOf(Lookup(d, "totals")))
  }

  /** The cookie framing check passes: the first space sits right after `|cookie|` bytes. */
  predicate SpaceAfter(cookie: string, resposta: string)
  {
    |resposta| > |cookie| && resposta[|cookie|] == ' ' && ' ' !in resposta[..|cookie|]
  }

  /** Decodes a response for `cookie`. A frame whose first space is not right after the
      cookie length, a frame carrying another cookie, and a body that is not one bencoded
      dictionary each end early; otherwise the dictionary is mapped onto the record. */
  function DecodeResposta(cookie: string, resposta: string): (r: ResponseRtp)
    ensures !SpaceAfter(cookie, resposta) ==> r == Failure("Failed to parse the message")
    ensures SpaceAfter(cookie, resposta) && resposta[..|cookie|] != cookie
            ==> r == Failure("Cookie mismatch")
  {
    var cookieIndex := IndexOfSpace(resposta);
    if cookieIndex != |cookie| then Failure("Failed to parse the message")
    else if resposta[..cookieIndex] != cookie then Failure("Cookie mismatch")
    else
      match ParseDict(resposta[cookieIndex + 1..])
      case None => ZeroResponse
      case Some(d) => DecodeFields(d)
  }

  // ---- Properties of the request encoding ----

  /** A failed marshal yields the error and no frame bytes at all. */
  lemma FrameOfFailedMarshal(cookie: string, err: string)
    ensures Frame(cookie, Err(err)) == Err(err)
  {
  }

  /** Collect yields exactly the entries of the places in range. */
  lemma {:induction false} CollectFrom(f: nat -> Option<Entry>, i: nat, n: nat, e: Entry)
    requires e in Collect(f, i, n)
    ensures exists j :: i <= j < n && f(j) == Some(e)
    decreases n - i
  {
    if f(i) != Some(e) {
      CollectFrom(f, i + 1, n, e);
    }
  }

  lemma {:induction false} CollectKeeps(f: nat -> Option<Entry>, i: nat, n: nat, j: nat)
    requires i <= j < n && f(j).Some?
    ensures f(j).value in Collect(f, i, n)
    decreases n - i
  {
    if i < j {
      CollectKeeps(f, i + 1, n, j);
    }
  }

  /** An entry is sent only for a parameter whose value is not omitted, under its tag. */
  lemma SentFrom(r: Request, e: Entry) returns (p: Param)
    requires e in Entries(r)
    ensures Tag(p) == e.key && Wire(ValueOf(r, p)) == Some(e.val)
  {
    CollectFrom((i: nat) => EntryAt(r, i), 0, ParamCount, e);
    var j :| 0 <= j < ParamCount && EntryAt(r, j) == Some(e);
    p := ParamAt(j);
    EntryAtSent(r, j, e);
  }

  /** What EntryAt yields is the wire form of the parameter at that place. */
  lemma EntryAtSent(r: Request, j: nat, e: Entry)
    requires j < ParamCount && EntryAt(r, j) == Some(e)
    ensures Tag(ParamAt(j)) == e.key && Wire(ValueOf(r, ParamAt(j))) == Some(e.val)
  {
  }

  /** Every parameter whose value is not omitted is sent, under its tag. */
  lemma SentKeeps(r: Request, p: Param)
    requires Wire(ValueOf(r, p)).Some?
    ensures Entry(Tag(p), Wire(ValueOf(r, p)).value) in Entries(r)
  {
    CollectKeeps((i: nat) => EntryAt(r, i), 0, ParamCount, Position(p));
  }

  /** The command is the only parameter sent without `omitempty`. */
  lemma OnlyCommandMandatory(r: Request, p: Param)
    ensures ValueOf(r, p).CommandName? <==> p == Command
  {
  }

  /** The `command` key is always sent, whatever the command string is. */
  lemma CommandAlwaysSent(r: Request)
    ensures Entry("command", BStr(r.command)) in Entries(r)
  {
    assert Tag(Command) == "command";
    assert Wire(ValueOf(r, Command)) == Some(BStr(r.command));
    SentKeeps(r, Command);
  }

  /** No parameter is sent with a zero value: an empty string, zero or an empty list never
      appears in the dictionary except as the command itself. */
  lemma NothingEmptySent(r: Request)
    ensures forall e :: e in Entries(r) && e.key != "command" ==> !Omittable(e.val)
  {
    forall e | e in Entries(r) && e.key != "command"
      ensures !Omittable(e.val)
    {
      var p := SentFrom(r, e);
      OnlyCommandMandatory(r, p);
    }
  }

  /** A request with no parameters sends its command and nothing else. */
  lemma EmptyRequestSendsOnlyCommand(command: string)
    ensures Entry("command", BStr(command)) in Entries(Request(command, EmptyStrings, EmptyInts, EmptyArrays))
    ensures forall e :: e in Entries(Request(command, EmptyStrings, EmptyInts, EmptyArrays))
                        ==> e == Entry("command", BStr(command))
  {
    var r := Request(command, EmptyStrings, EmptyInts, EmptyArrays);
    CommandAlwaysSent(r);
    forall e | e in Entries(r)
      ensures e == Entry("command", BStr(command))
    {
      EmptyRequestEntry(command, e);
    }
  }

  /** The one entry a request without parameters can carry is its command. */
  lemma EmptyRequestEntry(command: string, e: Entry)
    requires e in Entries(Request(command, EmptyStrings, EmptyInts, EmptyArrays))
    ensures e == Entry("command", BStr(command))
  {
    var p := SentFrom(Request(command, EmptyStrings, EmptyInts, EmptyArrays), e);
    if p != Command {
      EmptyFieldOmitted(command, p);
      assert false;
    }
    assert Tag(Command) == "command";
  }

  /** In a request with no parameters every field but the command holds its zero value. */
  lemma EmptyFieldOmitted(command: string, p: Param)
    requires p != Command
    ensures Wire(ValueOf(Request(command, EmptyStrings, EmptyInts, EmptyArrays), p)).None?
  {
    match p
    case OfStrings(f) => EmptyStringOmitted(f);
    case OfInts(f) => EmptyIntOmitted(f);
    case OfArrays(f) => EmptyArrayOmitted(f);
  }

  lemma EmptyStringOmitted(f: StringParam)
    ensures Wire(StringValue(EmptyStrings, f)).None?
  {
  }

  lemma EmptyIntOmitted(f: IntParam)
    ensures IntValue(EmptyInts, f) == 0
  {
  }

  lemma EmptyArrayOmitted(f: ArrayParam)
    ensures Wire(ArrayValue(EmptyArrays, f)).None?
  {
  }

  /** Only the start position is tagged "rstart-pos", and nothing is tagged with its `json`
      name "start-pos". */
  lemma StartPosTag(p: Param)
    ensures Tag(p) == "rstart-pos" <==> p == OfInts(StartPos)
    ensures Tag(p) != "start-pos"
  {
    match p
    case Command =>
    case OfStrings(f) => StringTagsBesideStartPos(f);
    case OfInts(f) => IntTagsBesideStartPos(f);
    case OfArrays(f) => ArrayTagsBesideStartPos(f);
  }

  lemma StringTagsBesideStartPos(f: StringParam)
    ensures StringTag(f) != "rstart-pos" && StringTag(f) != "start-pos"
  {
  }

  lemma IntTagsBesideStartPos(f: IntParam)
    ensures IntTag(f) == "rstart-pos" <==> f == StartPos
    ensures IntTag(f) != "start-pos"
  {
  }

  lemma ArrayTagsBesideStartPos(f: ArrayParam)
    ensures ArrayTag(f) != "rstart-pos" && ArrayTag(f) != "start-pos"
  {
  }

  /** The start position travels under the key "rstart-pos", sent exactly when it is not
      zero; no entry is ever sent under its `json` name "start-pos". */
  lemma StartPosKey(r: Request)
    ensures forall e :: e in Entries(r) && e.key == "rstart-pos" ==> e.val == BInt(r.ints.startPos)
    ensures r.ints.startPos != 0 <==> exists e :: e in Entries(r) && e.key == "rstart-pos"
    ensures forall e :: e in Entries(r) ==> e.key != "start-pos"
  {
    forall e | e in Entries(r)
      ensures e.key == "rstart-pos" ==> r.ints.startPos != 0 && e.val == BInt(r.ints.startPos)
      ensures e.key != "start-pos"
    {
      StartPosEntry(r, e);
    }
    if r.ints.startPos != 0 {
      StartPosSent(r);
    }
  }

  /** An entry under "rstart-pos" carries the start position, which is then not zero; no
      entry is under "start-pos". */
  lemma StartPosEntry(r: Request, e: Entry)
    requires e in Entries(r)
    ensures e.key == "rstart-pos" ==> r.ints.startPos != 0 && e.val == BInt(r.ints.startPos)
    ensures e.key != "start-pos"
  {
    var p := SentFrom(r, e);
    StartPosParam(r, p, e);
  }

  lemma StartPosParam(r: Request, p: Param, e: Entry)
    requires Tag(p) == e.key && Wire(ValueOf(r, p)) == Some(e.val)
    ensures e.key == "rstart-pos" ==> r.ints.startPos != 0 && e.val == BInt(r.ints.startPos)
    ensures e.key != "start-pos"
  {
    StartPosTag(p);
    if p == OfInts(StartPos) {
      assert ValueOf(r, OfInts(StartPos)) == Number(r.ints.startPos);
    }
  }

  /** A start position other than zero is sent under "rstart-pos". */
  lemma StartPosSent(r: Request)
    requires r.ints.startPos != 0
    ensures Entry("rstart-pos", BInt(r.ints.startPos)) in Entries(r)
  {
    assert Tag(OfInts(StartPos)) == "rstart-pos";
    assert ValueOf(r, OfInts(StartPos)) == Number(r.ints.startPos);
    SentKeeps(r, OfInts(StartPos));
  }

  // ---- The nested dictionaries ----

  /** Every entry of a nested dictionary is some key with the value at its place. */
  lemma {:induction false} FieldsFrom(keys: seq<string>, vals: seq<Option<BValue>>, e: Entry)
    requires |keys| == |vals| && e in Fields(keys, vals)
    ensures exists i :: 0 <= i < |keys| && keys[i] == e.key && vals[i] == Some(e.val)
  {
    if !(vals[0].Some? && e == Entry(keys[0], vals[0].value)) {
      FieldsFrom(keys[1..], vals[1..], e);
      var i :| 0 <= i < |keys| - 1 && keys[1..][i] == e.key && vals[1..][i] == Some(e.val);
      assert keys[i + 1] == e.key && vals[i + 1] == Some(e.val);
    }
  }

  /** Every key whose value is present is sent with it. */
  lemma {:induction false} FieldsKeep(keys: seq<string>, vals: seq<Option<BValue>>, i: nat)
    requires |keys| == |vals| && i < |keys| && vals[i].Some?
    ensures Entry(keys[i], vals[i].value) in Fields(keys, vals)
  {
    if i > 0 {
      FieldsKeep(keys[1..], vals[1..], i - 1);
    }
  }

  /** With distinct keys, the key at place i is sent exactly when the value there is present,
      and only with that value. */
  lemma FieldSent(keys: seq<string>, vals: seq<Option<BValue>>, i: nat)
    requires |keys| == |vals| && Distinct(keys) && i < |keys|
    ensures vals[i].Some? ==> Entry(keys[i], vals[i].value) in Fields(keys, vals)
    ensures forall e :: e in Fields(keys, vals) && e.key == keys[i] ==> vals[i] == Some(e.val)
  {
    if vals[i].Some? {
      FieldsKeep(keys, vals, i);
    }
    forall e | e in Fields(keys, vals) && e.key == keys[i]
      ensures vals[i] == Some(e.val)
    {
      FieldsFrom(keys, vals, e);
    }
  }

  /** A string field is sent exactly when it is not empty. */
  lemma TextFieldSent(keys: seq<string>, vals: seq<Option<BValue>>, i: nat, v: string)
    requires |keys| == |vals| && Distinct(keys) && i < |keys| && vals[i] == TextValue(v)
    ensures Entry(keys[i], BStr(v)) in Fields(keys, vals) <==> v != ""
  {
    FieldSent(keys, vals, i);
  }

  /** A dictionary built from string fields holds only its own keys, with non-empty strings. */
  lemma TextFieldsOnly(keys: seq<string>, ts: seq<string>)
    requires |keys| == |ts|
    ensures forall e :: e in Fields(keys, TextValues(ts)) ==>
                          e.key in keys && e.val.BStr? && e.val != BStr("")
  {
    forall e | e in Fields(keys, TextValues(ts))
      ensures e.key in keys && e.val.BStr? && e.val != BStr("")
    {
      FieldsFrom(keys, TextValues(ts), e);
    }
  }

  lemma NestedKeysDistinct()
    ensures Distinct(CommandKeys) && Distinct(SectionKeys) && Distinct(MohKeys)
  {
  }

  /** A music-on-hold source sends each of its five fields exactly when it is not empty,
      under its `bencode` tag and with its value, and nothing else. */
  lemma MohDictSendsNonEmptyFields(m: ParamMoh)
    ensures var es := MohDict(m).entries;
      && (Entry("file", BStr(m.file)) in es <==> m.file != "")
      && (Entry("blob", BStr(m.blob)) in es <==> m.blob != "")
      && (Entry("db-id", BStr(m.dbId)) in es <==> m.dbId != "")
      && (Entry("mode", BStr(m.mode)) in es <==> m.mode != "")
      && (Entry("connection", BStr(m.connection)) in es <==> m.connection != "")
      && forall e :: e in es ==> e.key in MohKeys && e.val.BStr? && e.val != BStr("")
  {
    var ts := [m.blob, m.connection, m.dbId, m.file, m.mode];
    var vals := TextValues(ts);
    NestedKeysDistinct();
    TextFieldSent(MohKeys, vals, 0, m.blob);
    TextFieldSent(MohKeys, vals, 1, m.connection);
    TextFieldSent(MohKeys, vals, 2, m.dbId);
    TextFieldSent(MohKeys, vals, 3, m.file);
    TextFieldSent(MohKeys, vals, 4, m.mode);
    TextFieldsOnly(MohKeys, ts);
  }

  /** The edits of one SDP section send each of the add, remove and substitute lists exactly
      when it is not empty, with its items in order, and nothing else. */
  lemma CommandsDictSendsNonEmptyLists(c: ParamsSdpAttrCommands)
    ensures var es := CommandsDict(c).entries;
      && (Entry("add", BList(StrList(c.add))) in es <==> c.add != [])
      && (Entry("remove", BList(StrList(c.remove))) in es <==> c.remove != [])
      && (Entry("substitute", BList(ListsOf(c.substitute))) in es <==> c.substitute != [])
      && forall e :: e in es ==> e.key in CommandKeys && e.val.BList? && e.val != BList([])
  {
    var vals := [ListValue(c.add), ListValue(c.remove),
                 if c.substitute == [] then None else Some(BList(ListsOf(c.substitute)))];
    NestedKeysDistinct();
    FieldSent(CommandKeys, vals, 0);
    FieldSent(CommandKeys, vals, 1);
    FieldSent(CommandKeys, vals, 2);
    forall e | e in Fields(CommandKeys, vals)
      ensures e.key in CommandKeys && e.val.BList? && e.val != BList([])
    {
      FieldsFrom(CommandKeys, vals, e);
    }
  }

  /** The `sdp-attr` dictionary sends the edits of each section that is present, under the
      section's name, and nothing for a nil section. */
  lemma SectionsDictSendsPresentSections(s: ParamsSdpAttrSections)
    ensures var es := SectionsDict(s).entries;
      && (s.audio.Some? ==> Entry("audio", CommandsDict(s.audio.value)) in es)
      && (s.global.Some? ==> Entry("global", CommandsDict(s.global.value)) in es)
      && (s.none.Some? ==> Entry("none", CommandsDict(s.none.value)) in es)
      && (s.video.Some? ==> Entry("video", CommandsDict(s.video.value)) in es)
      && (s.audio.None? ==> forall e :: e in es ==> e.key != "audio")
      && (s.global.None? ==> forall e :: e in es ==> e.key != "global")
      && (s.none.None? ==> forall e :: e in es ==> e.key != "none")
      && (s.video.None? ==> forall e :: e in es ==> e.key != "video")
      && forall e :: e in es ==> e.key in SectionKeys
  {
    var vals := [SectionValue(s.audio), SectionValue(s.global), SectionValue(s.none),
                 SectionValue(s.video)];
    NestedKeysDistinct();
    FieldSent(SectionKeys, vals, 0);
    FieldSent(SectionKeys, vals, 1);
    FieldSent(SectionKeys, vals, 2);
    FieldSent(SectionKeys, vals, 3);
    forall e | e in Fields(SectionKeys, vals)
      ensures e.key in SectionKeys
    {
      FieldsFrom(SectionKeys, vals, e);
    }
  }

  // ---- Properties of response decoding ----

  /** A cookie containing a space can never be accepted: every response is then a local
      failure, either a framing failure or a cookie mismatch. */
  lemma CookieWithSpaceNeverAccepted(cookie: string, resposta: string)
    requires ' ' in cookie
    ensures DecodeResposta(cookie, resposta) == Failure("Failed to parse the message")
            || DecodeResposta(cookie, resposta) == Failure("Cookie mismatch")
  {
  }

  /** With a cookie free of spaces, the frame `cookie + " " + body` passes both cookie checks
      and decoding continues with the body alone. */
  lemma OwnFrameAccepted(cookie: string, body: string)
    requires ' ' !in cookie
    ensures SpaceAfter(cookie, cookie + " " + body)
    ensures DecodeResposta(cookie, cookie + " " + body)
            == match ParseDict(body)
               case None => ZeroResponse
               case Some(d) => DecodeFields(d)
  {
    var s := cookie + " " + body;
    assert s[..|cookie|] == cookie;
    assert s[|cookie| + 1..] == body;
  }

  /** A body that is not exactly one bencoded dictionary gives the zero response: empty
      result and empty error reason, not an error response. */
  lemma BadBodyGivesZeroResponse(cookie: string, body: string)
    requires ' ' !in cookie && ParseDict(body).None?
    ensures DecodeResposta(cookie, cookie + " " + body) == ZeroResponse
    ensures DecodeResposta(cookie, cookie + " " + body).result == ""
    ensures DecodeResposta(cookie, cookie + " " + body).errorReason == ""
  {
    OwnFrameAccepted(cookie, body);
  }

  /** Decoding the frame of a request with its own cookie passes both cookie checks and
      reads the request dictionary itself. */
  lemma OwnCookieRoundTrip(cookie: string, r: Request)
    requires ' ' !in cookie
    ensures DecodeResposta(cookie, EncodeComando(cookie, r).value) == DecodeFields(Entries(r))
  {
    var body := MarshalRequest(r).value;
    OwnFrameAccepted(cookie, body);
  }

  /** The same frame decoded with another space-free cookie of the same length is a cookie
      mismatch. */
  lemma OtherCookieMismatch(cookie: string, other: string, r: Request)
    requires ' ' !in cookie && ' ' !in other && |other| == |cookie| && other != cookie
    ensures DecodeResposta(other, EncodeComando(cookie, r).value) == Failure("Cookie mismatch")
  {
    var s := EncodeComando(cookie, r).value;
    assert s[..|cookie|] == cookie;
    assert SpaceAfter(other, s);
  }

  // ---- A reference encoder for responses ----

  function ValuesDict(v: ValuesRtp): BValue
  {
    BDict([Entry("bytes", BInt(v.bytes)), Entry("errors", BInt(v.errors)),
           Entry("packets", BInt(v.packets))])
  }

  function TotalsDict(t: TotalRtp): BValue
  {
    BDict([Entry("RCTP", ValuesDict(t.rtcp)), Entry("RTP", ValuesDict(t.rtp))])
  }

  /** The `json` names of the response fields, in byte order. */
  const ResponseKeyList: seq<string> :=
    ["created", "created_us", "error-reason", "from-tag", "from-tags", "last redis update",
     "last signal", "result", "sdp", "to-tag", "totals", "warning"]

  /** The values of a response's fields, in the order of ResponseKeyList. */
  function ResponseValues(resp: ResponseRtp): (vs: seq<BValue>)
    ensures |vs| == |ResponseKeyList|
  {
    [BInt(resp.created), BInt(resp.createdUs), BStr(resp.errorReason), BStr(resp.fromTag),
     BList(StrList(resp.fromTags)), BInt(resp.lastRedisUpdate), BInt(resp.lastSignal),
     BStr(resp.result), BStr(resp.sdp), BStr(resp.toTag), TotalsDict(resp.totals),
     BStr(resp.warning)]
  }

  /** Every field of a response under its `json` name, keys sorted. */
  function ResponseEntries(resp: ResponseRtp): seq<Entry>
  {
    Zip(ResponseKeyList, ResponseValues(resp))
  }

  lemma StrsOfStrList(items: seq<string>)
    ensures StrsOf(StrList(items)) == items
  {
  }

  /** Packet counters read back from their own dictionary. */
  lemma ValuesRoundTrip(v: ValuesRtp)
    ensures ValuesOf(Some(ValuesDict(v))) == v
  {
    var d := ValuesDict(v).entries;
    LookupUnique(d, Entry("packets", BInt(v.packets)));
    LookupUnique(d, Entry("bytes", BInt(v.bytes)));
    LookupUnique(d, Entry("errors", BInt(v.errors)));
  }

  /** Totals read back from their own dictionary. */
  lemma TotalsRoundTrip(t: TotalRtp)
    ensures TotalsOf(Some(TotalsDict(t))) == t
  {
    var d := TotalsDict(t).entries;
    LookupUnique(d, Entry("RTP", ValuesDict(t.rtp)));
    LookupUnique(d, Entry("RCTP", ValuesDict(t.rtcp)));
    ValuesRoundTrip(t.rtp);
    ValuesRoundTrip(t.rtcp);
  }

  // Each response key occurs once in ResponseKeyList, so Lookup finds the value at its
  // place; one lemma per key keeps each proof small.

  lemma CreatedFound(resp: ResponseRtp)
    ensures Lookup(ResponseEntries(resp), "created") == Some(BInt(resp.created))
  {
    var es := ResponseEntries(resp);
    assert es[0] == Entry("created", BInt(resp.created));
    LookupLastWins(es, "created", 0);
  }

  lemma CreatedUsFound(resp: ResponseRtp)
    ensures Lookup(ResponseEntries(resp), "created_us") == Some(BInt(resp.createdUs))
  {
    var es := ResponseEntries(resp);
    assert es[1] == Entry("created_us", BInt(resp.createdUs));
    LookupLastWins(es, "created_us", 1);
  }

  lemma ErrorReasonFound(resp: ResponseRtp)
    ensures Lookup(ResponseEntries(resp), "error-reason") == Some(BStr(resp.errorReason))
  {
    var es := ResponseEntries(resp);
    assert es[2] == Entry("error-reason", BStr(resp.errorReason));
    LookupLastWins(es, "error-reason", 2);
  }

  lemma FromTagFound(resp: ResponseRtp)
    ensures Lookup(ResponseEntries(resp), "from-tag") == Some(BStr(resp.fromTag))
  {
    var es := ResponseEntries(resp);
    assert es[3] == Entry("from-tag", BStr(resp.fromTag));
    LookupLastWins(es, "from-tag", 3);
  }

  lemma FromTagsFound(resp: ResponseRtp)
    ensures Lookup(ResponseEntries(resp), "from-tags") == Some(BList(StrList(resp.fromTags)))
  {
    var es := ResponseEntries(resp);
    assert es[4] == Entry("from-tags", BList(StrList(resp.fromTags)));
    LookupLastWins(es, "from-tags", 4);
  }

  lemma LastRedisUpdateFound(resp: ResponseRtp)
    ensures Lookup(ResponseEntries(resp), "last redis update") == Some(BInt(resp.lastRedisUpdate))
  {
    var es := ResponseEntries(resp);
    assert es[5] == Entry("last redis update", BInt(resp.lastRedisUpdate));
    LookupLastWins(es, "last redis update", 5);
  }

  lemma LastSignalFound(resp: ResponseRtp)
    ensures Lookup(ResponseEntries(resp), "last signal") == Some(BInt(resp.lastSignal))
  {
    var es := ResponseEntries(resp);
    assert es[6] == Entry("last signal", BInt(resp.lastSignal));
    LookupLastWins(es, "last signal", 6);
  }

  lemma ResultFound(resp: ResponseRtp)
    ensures Lookup(ResponseEntries(resp), "result") == Some(BStr(resp.result))
  {
    var es := ResponseEntries(resp);
    assert es[7] == Entry("result", BStr(resp.result));
    LookupLastWins(es, "result", 7);
  }

  lemma SdpFound(resp: ResponseRtp)
    ensures Lookup(ResponseEntries(resp), "sdp") == Some(BStr(resp.sdp))
  {
    var es := ResponseEntries(resp);
    assert es[8] == Entry("sdp", BStr(resp.sdp));
    LookupLastWins(es, "sdp", 8);
  }

  lemma ToTagFound(resp: ResponseRtp)
    ensures Lookup(ResponseEntries(resp), "to-tag") == Some(BStr(resp.toTag))
  {
    var es := ResponseEntries(resp);
    assert es[9] == Entry("to-tag", BStr(resp.toTag));
    LookupLastWins(es, "to-tag", 9);
  }

  lemma TotalsFound(resp: ResponseRtp)
    ensures Lookup(ResponseEntries(resp), "totals") == Some(TotalsDict(resp.totals))
  {
    var es := ResponseEntries(resp);
    assert es[10] == Entry("totals", TotalsDict(resp.totals));
    LookupLastWins(es, "totals", 10);
  }

  lemma WarningFound(resp: ResponseRtp)
    ensures Lookup(ResponseEntries(resp), "warning") == Some(BStr(resp.warning))
  {
    var es := ResponseEntries(resp);
    assert es[11] == Entry("warning", BStr(resp.warning));
    LookupLastWins(es, "warning", 11);
  }

  /** The `json` mapping reads back every field of a response from its own dictionary. */
  lemma FieldsRoundTrip(resp: ResponseRtp)
    ensures DecodeFields(ResponseEntries(resp)) == resp
  {
    CreatedFound(resp);
    CreatedUsFound(resp);
    ErrorReasonFound(resp);
    FromTagFound(resp);
    FromTagsFound(resp);
    LastRedisUpdateFound(resp);
    LastSignalFound(resp);
    ResultFound(resp);
    SdpFound(resp);
    ToTagFound(resp);
    TotalsFound(resp);
    WarningFound(resp);
    StrsOfStrList(resp.fromTags);
    TotalsRoundTrip(resp.totals);
  }

  /** Every response survives the trip through the wire: framed with a space-free cookie
      and decoded with the same cookie, it comes back field for field. */
  lemma ResponseRoundTrip(cookie: string, resp: ResponseRtp)
    requires ' ' !in cookie
    ensures DecodeResposta(cookie, cookie + " " + Encode(BDict(ResponseEntries(resp)))) == resp
  {
    var d := ResponseEntries(resp);
    DictRoundTrip(d);
    OwnFrameAccepted(cookie, Encode(BDict(d)));
    FieldsRoundTrip(resp);
  }

  /** A dictionary with no known key decodes to the zero response. */
  lemma UnknownKeysDecodeToZero(d: seq<Entry>)
    requires forall e :: e in d ==> e.key !in ResponseKeys
    ensures DecodeFields(d) == ZeroResponse
  {
    LookupNone(d, "result");
    LookupNone(d, "sdp");
    LookupNone(d, "error-reason");
    LookupNone(d, "warning");
    LookupNone(d, "created");
    LookupNone(d, "created_us");
    LookupNone(d, "last signal");
    LookupNone(d, "last redis update");
    LookupNone(d, "from-tag");
    LookupNone(d, "from-tags");
    LookupNone(d, "to-tag");
    LookupNone(d, "totals");
  }

  const ResponseKeys: set<string> :=
    {"result", "sdp", "error-reason", "warning", "created", "created_us", "last signal",
     "last redis update", "from-tag", "from-tags", "to-tag", "totals"}

  /** Statistics sent under "RTCP" are not read: the record's `json` tag for them is
      "RCTP", so only that spelling fills the RTCP counters. */
  lemma RtcpTotalsReadOnlyAsRctp(rtp: ValuesRtp, rtcp: ValuesRtp)
    ensures TotalsOf(Some(BDict([Entry("RTCP", ValuesDict(rtcp)), Entry("RTP", ValuesDict(rtp))])))
            == TotalRtp(rtp, ZeroValues)
    ensures TotalsOf(Some(BDict([Entry("RCTP", ValuesDict(rtcp)), Entry("RTP", ValuesDict(rtp))])))
            == TotalRtp(rtp, rtcp)
  {
    var d := [Entry("RTCP", ValuesDict(rtcp)), Entry("RTP", ValuesDict(rtp))];
    LookupUnique(d, Entry("RTP", ValuesDict(rtp)));
    LookupNone(d, "RCTP");
    ValuesRoundTrip(rtp);
    TotalsRoundTrip(TotalRtp(rtp, rtcp));
  }
}
