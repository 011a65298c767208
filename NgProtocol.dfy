/** The request builders of ng_protocol.go: `SDPOffering`, `SDPAnswer` and `SDPDelete`
    create a request with a fixed command around the caller's string parameters and fresh
    integer and list aggregates, then run a list of options over it in order, stopping at
    the first one that reports an error. Each option is a small in-place edit of one field
    of the request.

    A Go option is a closure; here it is a value of `ParametrosOption`, one constructor per
    setter of ng_protocol.go, plus `Failing` for an option written by the caller that
    reports an error. `Applied` is the pure effect of one option, `Run` the fail-fast fold of
    a list of them, and the methods `Apply` and `Build` perform the same edits in place. */
module NgProtocol {
  import opened Wrappers
  import opened RtpEngine
  import V = Vocabulary

  // ---- Options ----

  /** The options that edit the string parameters, which the request shares with the
      caller. */
  datatype StringOption =
    | SetTransportProtocol(proto: V.TransportProtocol)
    | ICERemove
    | ICEForce
    | SetAttrChange(sdpAttr: Option<ParamsSdpAttrSections>)
    | SetViaBranchTag(branch: string)
    | SetMediaAddress(address: string)
    | RecordYes
    | RecordNo
    | RecordOn
    | RecordOff

  /** The options that edit the integer parameters. */
  datatype IntOption =
    | SetPtimeCodecOffer(ptime: int)
    | SetPtimeCodecAnswer(ptime: int)

  /** The options that edit the list parameters. */
  datatype ArrayOption =
    | SetFlags(flags: seq<V.ParamFlag>)
    | SetReplace(replace: seq<V.ParamReplace>)
    | SetRtcpMux(rtcpMux: seq<V.RtcpMux>)
    | SetCodecEncoder(codecs: seq<V.Codec>)
    | SetCodecMask(codecs: seq<V.Codec>)
    | SetCodecStrip(codecs: seq<V.Codec>)
    | SetCodecExcept(codecs: seq<V.Codec>)
    | DisablesSDES
    | DeleteSDES(suites: seq<V.CryptoSuite>)
    | EnableSDES(suites: seq<V.CryptoSuite>)
    | SetReceivedFrom(addressFamily: V.AddressFamily, address: string)
    | SetMohFile(file: string)

  /** An option, grouped by the aggregate it edits: one of the setters of ng_protocol.go,
      or `Failing`, an option supplied by the caller that reports the given error without
      editing the request. */
  datatype ParametrosOption =
    | OnStrings(s: StringOption)
    | OnInts(n: IntOption)
    | OnArrays(a: ArrayOption)
    | Failing(err: string)

  /** The error an option reports: none of the setters of ng_protocol.go ever fails. */
  function OptionError(o: ParametrosOption): (r: Option<string>)
    ensures r.Some? <==> o.Failing?
    ensures o.Failing? ==> r == Some(o.err)
  {
    if o.Failing? then Some(o.err) else None
  }

  /** Whether a list option is one of the four codec options. */
  predicate IsCodecOption(o: ArrayOption)
  {
    o.SetCodecEncoder? || o.SetCodecMask? || o.SetCodecStrip? || o.SetCodecExcept?
  }

  /** The prefix a codec option puts in front of each codec name. */
  function CodecPrefix(o: ArrayOption): string
    requires IsCodecOption(o)
  {
    match o
    case SetCodecEncoder(_) => "codec-transcode-"
    case SetCodecMask(_) => "codec-mask-"
    case SetCodecStrip(_) => "codec-strip-"
    case SetCodecExcept(_) => "codec-except-"
  }

  /** The effect of a string option on the string parameters. */
  function StringsApplied(o: StringOption, s: ParamsOptString): ParamsOptString
  {
    match o
    case SetTransportProtocol(p) => s.(transportProtocol := p)
    case ICERemove => s.(ice := V.IceRemove)
    case ICEForce => s.(ice := V.IceForce)
    case SetAttrChange(a) => s.(sdpAttr := a)
    case SetViaBranchTag(b) => s.(viaBranch := b)
    case SetMediaAddress(a) => s.(mediaAddress := a)
    case RecordYes => s.(recordCall := V.RecordYes)
    case RecordNo => s.(recordCall := V.RecordNo)
    case RecordOn => s.(recordCall := V.RecordOn)
    case RecordOff => s.(recordCall := V.RecordOff)
  }

  /** The effect of an integer option on the integer parameters. */
  function IntsApplied(o: IntOption, n: ParamsOptInt): ParamsOptInt
  {
    match o
    case SetPtimeCodecOffer(x) => n.(ptime := x)
    case SetPtimeCodecAnswer(x) => n.(ptimeReverse := x)
  }

  /** The effect of a list option on the list parameters. */
  function ArraysApplied(o: ArrayOption, a: ParamsOptStringArray): ParamsOptStringArray
  {
    match o
    case SetFlags(fs) => a.(flags := a.flags + fs)
    case SetReplace(r) => a.(replace := r)
    case SetRtcpMux(m) => a.(rtcpMux := m)
    case SetCodecEncoder(cs) => a.(flags := a.flags + V.Prefixed("codec-transcode-", cs))
    case SetCodecMask(cs) => a.(flags := a.flags + V.Prefixed("codec-mask-", cs))
    case SetCodecStrip(cs) => a.(flags := a.flags + V.Prefixed("codec-strip-", cs))
    case SetCodecExcept(cs) => a.(flags := a.flags + V.Prefixed("codec-except-", cs))
    case DisablesSDES => a.(sdes := a.sdes + [V.SdesOff])
    case DeleteSDES(ss) => a.(sdes := a.sdes + V.Prefixed("no-", ss))
    case EnableSDES(ss) => a.(sdes := a.sdes + V.Prefixed("only-", ss))
    case SetReceivedFrom(af, addr) => a.(receivedFrom := [af, addr])
    case SetMohFile(f) => a.(moh := a.moh + [ParamMoh(f, "", "", "sendonly", "")])
  }

  /** The effect of one successful option on the request contents. */
  function Applied(o: ParametrosOption, v: Request): Request
  {
    match o
    case OnStrings(so) => v.(strs := StringsApplied(so, v.strs))
    case OnInts(no) => v.(ints := IntsApplied(no, v.ints))
    case OnArrays(ao) => v.(arrays := ArraysApplied(ao, v.arrays))
    case Failing(_) => v
  }

  /** Runs the options in order and stops at the first error: the contents reached, and the
      error if there was one. */
  function Run(options: seq<ParametrosOption>, v: Request): (Request, Option<string>)
  {
    if options == [] then (v, None)
    else if OptionError(options[0]).Some? then (v, OptionError(options[0]))
    else Run(options[1..], Applied(options[0], v))
  }

  /** The string parameter a string option writes. */
  function StringTarget(o: StringOption): StringParam
  {
    match o
    case SetTransportProtocol(_) => TransportProtocol
    case ICERemove => ICE
    case ICEForce => ICE
    case SetAttrChange(_) => SdpAttr
    case SetViaBranchTag(_) => ViaBranch
    case SetMediaAddress(_) => MediaAddress
    case RecordYes => RecordCall
    case RecordNo => RecordCall
    case RecordOn => RecordCall
    case RecordOff => RecordCall
  }

  /** The integer parameter an integer option writes. */
  function IntTarget(o: IntOption): IntParam
  {
    match o
    case SetPtimeCodecOffer(_) => Ptime
    case SetPtimeCodecAnswer(_) => PtimeReverse
  }

  /** The list parameter a list option writes. */
  function ArrayTarget(o: ArrayOption): ArrayParam
  {
    match o
    case SetFlags(_) => Flags
    case SetReplace(_) => Replace
    case SetRtcpMux(_) => RtcpMux
    case SetCodecEncoder(_) => Flags
    case SetCodecMask(_) => Flags
    case SetCodecStrip(_) => Flags
    case SetCodecExcept(_) => Flags
    case DisablesSDES => SDES
    case DeleteSDES(_) => SDES
    case EnableSDES(_) => SDES
    case SetReceivedFrom(_, _) => ReceivedFrom
    case SetMohFile(_) => Moh
  }

  /** The parameter an option writes; a failing option writes none. */
  function Target(o: ParametrosOption): Option<Param>
  {
    match o
    case OnStrings(so) => Some(OfStrings(StringTarget(so)))
    case OnInts(no) => Some(OfInts(IntTarget(no)))
    case OnArrays(ao) => Some(OfArrays(ArrayTarget(ao)))
    case Failing(_) => None
  }

  /** The options that assign their field outright, whatever it held before: every string
      and integer option, and the list options that replace their list rather than append
      to it. */
  predicate Overwrites(o: ParametrosOption)
  {
    o.OnStrings? || o.OnInts?
    || (o.OnArrays? && (o.a.SetReplace? || o.a.SetRtcpMux? || o.a.SetReceivedFrom?))
  }

  // ---- In place ----

  /** Derives one token per item, in order, as the codec and SDES options do. */
  method PrefixEach(prefix: string, items: seq<string>) returns (r: seq<string>)
    ensures r == V.Prefixed(prefix, items)
  {
    r := [];
    var i := 0;
    while i < |items|
      invariant 0 <= i <= |items|
      invariant |r| == i
      invariant forall k :: 0 <= k < i ==> r[k] == prefix + items[k]
    {
      r := r + [prefix + items[i]];
      i := i + 1;
    }
  }

  /** Runs a string option in place, through the pointer the request shares with the
      caller. */
  method ApplyToStrings(o: StringOption, p: Ptr<ParamsOptString>)
    modifies p
    ensures p.val == StringsApplied(o, old(p.val))
  {
    match o {
      case SetTransportProtocol(proto) => p.val := p.val.(transportProtocol := proto);
      case ICERemove => p.val := p.val.(ice := "remove");
      case ICEForce => p.val := p.val.(ice := "force");
      case SetAttrChange(a) => p.val := p.val.(sdpAttr := a);
      case SetViaBranchTag(b) => p.val := p.val.(viaBranch := b);
      case SetMediaAddress(a) => p.val := p.val.(mediaAddress := a);
      case RecordYes => p.val := p.val.(recordCall := "yes");
      case RecordNo => p.val := p.val.(recordCall := "no");
      case RecordOn => p.val := p.val.(recordCall := "on");
      case RecordOff => p.val := p.val.(recordCall := "off");
    }
  }

  /** Runs an integer option in place. */
  method ApplyToInts(o: IntOption, p: Ptr<ParamsOptInt>)
    modifies p
    ensures p.val == IntsApplied(o, old(p.val))
  {
    match o {
      case SetPtimeCodecOffer(x) => p.val := p.val.(ptime := x);
      case SetPtimeCodecAnswer(x) => p.val := p.val.(ptimeReverse := x);
    }
  }

  /** Runs a list option in place. */
  method ApplyToArrays(o: ArrayOption, p: Ptr<ParamsOptStringArray>)
    modifies p
    ensures p.val == ArraysApplied(o, old(p.val))
  {
    match o {
      case SetFlags(fs) =>
        p.val := p.val.(flags := p.val.flags + fs);
      case SetReplace(r) =>
        p.val := p.val.(replace := r);
      case SetRtcpMux(m) =>
        p.val := p.val.(rtcpMux := m);
      case SetCodecEncoder(cs) =>
        var transcoder := PrefixEach("codec-transcode-", cs);
        p.val := p.val.(flags := p.val.flags + transcoder);
      case SetCodecMask(cs) =>
        var mask := PrefixEach("codec-mask-", cs);
        p.val := p.val.(flags := p.val.flags + mask);
      case SetCodecStrip(cs) =>
        var strip := PrefixEach("codec-strip-", cs);
        p.val := p.val.(flags := p.val.flags + strip);
      case SetCodecExcept(cs) =>
        var except := PrefixEach("codec-except-", cs);
        p.val := p.val.(flags := p.val.flags + except);
      case DisablesSDES =>
        var sdes := [V.SdesOff];
        p.val := p.val.(sdes := p.val.sdes + sdes);
      case DeleteSDES(ss) =>
        var sdes := PrefixEach("no-", ss);
        p.val := p.val.(sdes := p.val.sdes + sdes);
      case EnableSDES(ss) =>
        var sdes := PrefixEach("only-", ss);
        p.val := p.val.(sdes := p.val.sdes + sdes);
      case SetReceivedFrom(af, addr) =>
        var receivedFrom := [];
        p.val := p.val.(receivedFrom := receivedFrom + [af, addr]);
      case SetMohFile(f) =>
        p.val := p.val.(moh := p.val.moh + [ParamMoh(f, "", "", "sendonly", "")]);
    }
  }

  /** Runs one option on a request in place and returns the error it reports. */
  method Apply(o: ParametrosOption, s: RequestRtp) returns (err: Option<string>)
    modifies s.strs, s.ints, s.arrays
    ensures err == OptionError(o)
    ensures s.Value() == if err.None? then Applied(o, old(s.Value())) else old(s.Value())
  {
    match o {
      case OnStrings(so) => ApplyToStrings(so, s.strs);
      case OnInts(no) => ApplyToInts(no, s.ints);
      case OnArrays(ao) => ApplyToArrays(ao, s.arrays);
      case Failing(e) => return Some(e);
    }
    return None;
  }

  /** The contents a builder reaches for the given command, caller's parameters and
      options, and the error it stops at, if any. */
  function Outcome(command: string, strs: ParamsOptString, options: seq<ParametrosOption>)
    : (Request, Option<string>)
  {
    Run(options, Request(command, strs, EmptyInts, EmptyArrays))
  }

  /** Creates a request with the given command around the caller's string parameters and
      fresh, empty integer and list aggregates, then runs the options in order, stopping at
      the first error. The caller's parameters keep every edit made before the error. */
  method Build(command: string, parametros: Ptr<ParamsOptString>, options: seq<ParametrosOption>)
    returns (request: RequestRtp?, err: Option<string>)
    modifies parametros
    ensures err == Outcome(command, old(parametros.val), options).1
    ensures parametros.val == Outcome(command, old(parametros.val), options).0.strs
    ensures err.Some? <==> request == null
    ensures request != null ==>
      && fresh(request) && fresh(request.ints) && fresh(request.arrays)
      && request.command == command && request.strs == parametros
      && request.Value() == Outcome(command, old(parametros.val), options).0
  {
    var ints := new Ptr(EmptyInts);
    var arrays := new Ptr(EmptyArrays);
    var r := new RequestRtp(command, parametros, ints, arrays);
    ghost var outcome := Outcome(command, parametros.val, options);
    var i := 0;
    while i < |options|
      invariant 0 <= i <= |options|
      invariant r.command == command && r.strs == parametros && r.ints == ints && r.arrays == arrays
      invariant fresh(r) && fresh(ints) && fresh(arrays)
      invariant Run(options[i..], r.Value()) == outcome
    {
      assert options[i..][0] == options[i] && options[i..][1..] == options[i + 1..];
      var e := Apply(options[i], r);
      if e.Some? {
        return null, e;
      }
      i := i + 1;
    }
    return r, None;
  }

  /** `SDPOffering`: a request with the command "offer". */
  method SdpOffering(parametros: Ptr<ParamsOptString>, options: seq<ParametrosOption>)
    returns (request: RequestRtp?, err: Option<string>)
    modifies parametros
    ensures err == Outcome(V.Offer, old(parametros.val), options).1
    ensures parametros.val == Outcome(V.Offer, old(parametros.val), options).0.strs
    ensures err.Some? <==> request == null
    ensures request != null ==>
      && fresh(request) && fresh(request.ints) && fresh(request.arrays)
      && request.command == "offer" && request.strs == parametros
      && request.Value() == Outcome(V.Offer, old(parametros.val), options).0
  {
    request, err := Build(V.Offer, parametros, options);
  }

  /** `SDPAnswer`: a request with the command "answer". */
  method SdpAnswer(parametros: Ptr<ParamsOptString>, options: seq<ParametrosOption>)
    returns (request: RequestRtp?, err: Option<string>)
    modifies parametros
    ensures err == Outcome(V.Answer, old(parametros.val), options).1
    ensures parametros.val == Outcome(V.Answer, old(parametros.val), options).0.strs
    ensures err.Some? <==> request == null
    ensures request != null ==>
      && fresh(request) && fresh(request.ints) && fresh(request.arrays)
      && request.command == "answer" && request.strs == parametros
      && request.Value() == Outcome(V.Answer, old(parametros.val), options).0
  {
    request, err := Build(V.Answer, parametros, options);
  }

  /** `SDPDelete`: a request with the command "delete". */
  method SdpDelete(parametros: Ptr<ParamsOptString>, options: seq<ParametrosOption>)
    returns (request: RequestRtp?, err: Option<string>)
    modifies parametros
    ensures err == Outcome(V.Delete, old(parametros.val), options).1
    ensures parametros.val == Outcome(V.Delete, old(parametros.val), options).0.strs
    ensures err.Some? <==> request == null
    ensures request != null ==>
      && fresh(request) && fresh(request.ints) && fresh(request.arrays)
      && request.command == "delete" && request.strs == parametros
      && request.Value() == Outcome(V.Delete, old(parametros.val), options).0
  {
    request, err := Build(V.Delete, parametros, options);
  }

  // ---- Running a list of options ----

  /** Running two lists one after the other is running their concatenation: the second
      list starts where the first left off, unless the first stopped at an error. */
  lemma {:induction false} RunAppend(a: seq<ParametrosOption>, b: seq<ParametrosOption>, v: Request)
    ensures Run(a + b, v) == if Run(a, v).1.Some? then Run(a, v) else Run(b, Run(a, v).0)
    decreases |a|
  {
    if a == [] {
      assert a + b == b;
    } else {
      assert (a + b)[0] == a[0] && (a + b)[1..] == a[1..] + b;
      if OptionError(a[0]).None? {
        RunAppend(a[1..], b, Applied(a[0], v));
      }
    }
  }

  /** A list of options none of which fails runs to its end without an error. */
  lemma {:induction false} StandardOptionsNeverFail(options: seq<ParametrosOption>, v: Request)
    requires forall i :: 0 <= i < |options| ==> !options[i].Failing?
    ensures Run(options, v).1 == None
    decreases |options|
  {
    if options != [] {
      StandardOptionsNeverFail(options[1..], Applied(options[0], v));
    }
  }

  /** The first failing option ends the run with its error; the options after it are not
      run, and the contents are those reached by the options before it. */
  lemma {:induction false} RunStopsAtFirstError(pre: seq<ParametrosOption>, o: ParametrosOption,
                                                post: seq<ParametrosOption>, v: Request)
    requires forall i :: 0 <= i < |pre| ==> !pre[i].Failing?
    requires o.Failing?
    ensures Run(pre + [o] + post, v) == (Run(pre, v).0, Some(o.err))
  {
    StandardOptionsNeverFail(pre, v);
    RunAppend(pre, [o] + post, v);
    assert pre + [o] + post == pre + ([o] + post);
  }

  /** No option changes the command. */
  lemma {:induction false} RunKeepsCommand(options: seq<ParametrosOption>, v: Request)
    ensures Run(options, v).0.command == v.command
    decreases |options|
  {
    if options != [] && OptionError(options[0]).None? {
      RunKeepsCommand(options[1..], Applied(options[0], v));
    }
  }

  // ---- One option at a time ----

  lemma TransportProtocolFrame(s: ParamsOptString, x: string, f: StringParam)
    requires f != TransportProtocol
    ensures StringValue(s.(transportProtocol := x), f) == StringValue(s, f)
  {}

  lemma IceFrame(s: ParamsOptString, x: string, f: StringParam)
    requires f != ICE
    ensures StringValue(s.(ice := x), f) == StringValue(s, f)
  {}

  lemma SdpAttrFrame(s: ParamsOptString, x: Option<ParamsSdpAttrSections>, f: StringParam)
    requires f != SdpAttr
    ensures StringValue(s.(sdpAttr := x), f) == StringValue(s, f)
  {}

  lemma ViaBranchFrame(s: ParamsOptString, x: string, f: StringParam)
    requires f != ViaBranch
    ensures StringValue(s.(viaBranch := x), f) == StringValue(s, f)
  {}

  lemma MediaAddressFrame(s: ParamsOptString, x: string, f: StringParam)
    requires f != MediaAddress
    ensures StringValue(s.(mediaAddress := x), f) == StringValue(s, f)
  {}

  lemma RecordCallFrame(s: ParamsOptString, x: string, f: StringParam)
    requires f != RecordCall
    ensures StringValue(s.(recordCall := x), f) == StringValue(s, f)
  {}

  lemma PtimeFrame(n: ParamsOptInt, x: int, f: IntParam)
    requires f != Ptime
    ensures IntValue(n.(ptime := x), f) == IntValue(n, f)
  {}

  lemma PtimeReverseFrame(n: ParamsOptInt, x: int, f: IntParam)
    requires f != PtimeReverse
    ensures IntValue(n.(ptimeReverse := x), f) == IntValue(n, f)
  {}

  lemma FlagsFrame(a: ParamsOptStringArray, x: seq<string>, f: ArrayParam)
    requires f != Flags
    ensures ArrayValue(a.(flags := x), f) == ArrayValue(a, f)
  {}

  lemma ReplaceFrame(a: ParamsOptStringArray, x: seq<string>, f: ArrayParam)
    requires f != Replace
    ensures ArrayValue(a.(replace := x), f) == ArrayValue(a, f)
  {}

  lemma RtcpMuxFrame(a: ParamsOptStringArray, x: seq<string>, f: ArrayParam)
    requires f != RtcpMux
    ensures ArrayValue(a.(rtcpMux := x), f) == ArrayValue(a, f)
  {}

  lemma SdesFrame(a: ParamsOptStringArray, x: seq<string>, f: ArrayParam)
    requires f != SDES
    ensures ArrayValue(a.(sdes := x), f) == ArrayValue(a, f)
  {}

  lemma ReceivedFromFrame(a: ParamsOptStringArray, x: seq<string>, f: ArrayParam)
    requires f != ReceivedFrom
    ensures ArrayValue(a.(receivedFrom := x), f) == ArrayValue(a, f)
  {}

  lemma MohFrame(a: ParamsOptStringArray, x: seq<ParamMoh>, f: ArrayParam)
    requires f != Moh
    ensures ArrayValue(a.(moh := x), f) == ArrayValue(a, f)
  {}

  /** A string option changes its own string parameter and no other. */
  lemma StringOptionFrame(o: StringOption, s: ParamsOptString, f: StringParam)
    requires f != StringTarget(o)
    ensures StringValue(StringsApplied(o, s), f) == StringValue(s, f)
  {
    match o {
      case SetTransportProtocol(x) => TransportProtocolFrame(s, x, f);
      case ICERemove => IceFrame(s, V.IceRemove, f);
      case ICEForce => IceFrame(s, V.IceForce, f);
      case SetAttrChange(x) => SdpAttrFrame(s, x, f);
      case SetViaBranchTag(x) => ViaBranchFrame(s, x, f);
      case SetMediaAddress(x) => MediaAddressFrame(s, x, f);
      case RecordYes => RecordCallFrame(s, V.RecordYes, f);
      case RecordNo => RecordCallFrame(s, V.RecordNo, f);
      case RecordOn => RecordCallFrame(s, V.RecordOn, f);
      case RecordOff => RecordCallFrame(s, V.RecordOff, f);
    }
  }

  /** An integer option changes its own integer parameter and no other. */
  lemma IntOptionFrame(o: IntOption, n: ParamsOptInt, f: IntParam)
    requires f != IntTarget(o)
    ensures IntValue(IntsApplied(o, n), f) == IntValue(n, f)
  {
    match o {
      case SetPtimeCodecOffer(x) => PtimeFrame(n, x, f);
      case SetPtimeCodecAnswer(x) => PtimeReverseFrame(n, x, f);
    }
  }

  /** A list option changes its own list parameter and no other. */
  lemma ArrayOptionFrame(o: ArrayOption, a: ParamsOptStringArray, f: ArrayParam)
    requires f != ArrayTarget(o)
    ensures ArrayValue(ArraysApplied(o, a), f) == ArrayValue(a, f)
  {
    var b := ArraysApplied(o, a);
    match o {
      case SetFlags(_) => FlagsFrame(a, b.flags, f);
      case SetCodecEncoder(_) => FlagsFrame(a, b.flags, f);
      case SetCodecMask(_) => FlagsFrame(a, b.flags, f);
      case SetCodecStrip(_) => FlagsFrame(a, b.flags, f);
      case SetCodecExcept(_) => FlagsFrame(a, b.flags, f);
      case DisablesSDES => SdesFrame(a, b.sdes, f);
      case DeleteSDES(_) => SdesFrame(a, b.sdes, f);
      case EnableSDES(_) => SdesFrame(a, b.sdes, f);
      case SetReplace(x) => ReplaceFrame(a, x, f);
      case SetRtcpMux(x) => RtcpMuxFrame(a, x, f);
      case SetReceivedFrom(af, addr) => ReceivedFromFrame(a, [af, addr], f);
      case SetMohFile(_) => MohFrame(a, b.moh, f);
    }
  }

  /** An option changes its own parameter and no other, and never the command. */
  lemma OnlyTargetChanges(o: ParametrosOption, v: Request, p: Param)
    requires Target(o) != Some(p)
    ensures Applied(o, v).command == v.command
    ensures ValueOf(Applied(o, v), p) == ValueOf(v, p)
  {
    match o {
      case OnStrings(so) =>
        if p.OfStrings? {
          StringOptionFrame(so, v.strs, p.s);
        }
      case OnInts(no) =>
        if p.OfInts? {
          IntOptionFrame(no, v.ints, p.n);
        }
      case OnArrays(ao) =>
        if p.OfArrays? {
          ArrayOptionFrame(ao, v.arrays, p.a);
        }
      case Failing(_) =>
    }
  }

  /** The value a string option writes into its parameter. */
  function StringWritten(o: StringOption): FieldValue
  {
    match o
    case SetTransportProtocol(p) => Text(p)
    case ICERemove => Text("remove")
    case ICEForce => Text("force")
    case SetAttrChange(a) => SdpAttrEdits(a)
    case SetViaBranchTag(b) => Text(b)
    case SetMediaAddress(a) => Text(a)
    case RecordYes => Text("yes")
    case RecordNo => Text("no")
    case RecordOn => Text("on")
    case RecordOff => Text("off")
  }

  /** A string option leaves its parameter holding the value it writes, whatever the
      parameter held before. */
  lemma StringOptionOverwrites(o: StringOption, s: ParamsOptString)
    ensures StringValue(StringsApplied(o, s), StringTarget(o)) == StringWritten(o)
  {
    var t := StringsApplied(o, s);
    match o {
      case SetTransportProtocol(p) => assert t.transportProtocol == p;
      case ICERemove => assert t.ice == "remove";
      case ICEForce => assert t.ice == "force";
      case SetAttrChange(a) => assert t.sdpAttr == a;
      case SetViaBranchTag(b) => assert t.viaBranch == b;
      case SetMediaAddress(a) => assert t.mediaAddress == a;
      case RecordYes => assert t.recordCall == "yes";
      case RecordNo => assert t.recordCall == "no";
      case RecordOn => assert t.recordCall == "on";
      case RecordOff => assert t.recordCall == "off";
    }
  }

  /** A replacing list option leaves its list with a value that does not depend on what the
      list held before. */
  lemma ArrayOptionOverwrites(o: ArrayOption, a: ParamsOptStringArray, b: ParamsOptStringArray)
    requires o.SetReplace? || o.SetRtcpMux? || o.SetReceivedFrom?
    ensures ArrayValue(ArraysApplied(o, a), ArrayTarget(o))
         == ArrayValue(ArraysApplied(o, b), ArrayTarget(o))
  {
    match o {
      case SetReplace(_) =>
      case SetRtcpMux(_) =>
      case SetReceivedFrom(_, _) =>
    }
  }

  /** An overwriting option leaves its parameter with a value that does not depend on what
      the parameter held before. */
  lemma OverwriteForgetsOldValue(o: ParametrosOption, v: Request, w: Request)
    requires Overwrites(o)
    ensures Target(o).Some?
    ensures ValueOf(Applied(o, v), Target(o).value) == ValueOf(Applied(o, w), Target(o).value)
  {
    match o {
      case OnStrings(so) =>
        StringOptionOverwrites(so, v.strs);
        StringOptionOverwrites(so, w.strs);
      case OnInts(no) =>
        match no {
          case SetPtimeCodecOffer(_) =>
          case SetPtimeCodecAnswer(_) =>
        }
      case OnArrays(ao) => ArrayOptionOverwrites(ao, v.arrays, w.arrays);
    }
  }

  /** Two string options on the same parameter: the later one wins. */
  lemma LaterStringOptionWins(first: StringOption, second: StringOption, s: ParamsOptString)
    requires StringTarget(first) == StringTarget(second)
    ensures StringsApplied(second, StringsApplied(first, s)) == StringsApplied(second, s)
  {
    match second {
      case SetTransportProtocol(_) => assert first.SetTransportProtocol?;
      case ICERemove => assert first.ICERemove? || first.ICEForce?;
      case ICEForce => assert first.ICERemove? || first.ICEForce?;
      case SetAttrChange(_) => assert first.SetAttrChange?;
      case SetViaBranchTag(_) => assert first.SetViaBranchTag?;
      case SetMediaAddress(_) => assert first.SetMediaAddress?;
      case RecordYes => assert first.RecordYes? || first.RecordNo? || first.RecordOn? || first.RecordOff?;
      case RecordNo => assert first.RecordYes? || first.RecordNo? || first.RecordOn? || first.RecordOff?;
      case RecordOn => assert first.RecordYes? || first.RecordNo? || first.RecordOn? || first.RecordOff?;
      case RecordOff => assert first.RecordYes? || first.RecordNo? || first.RecordOn? || first.RecordOff?;
    }
  }

  /** Two overwriting list options on the same parameter: the later one wins. */
  lemma LaterArrayOptionWins(first: ArrayOption, second: ArrayOption, a: ParamsOptStringArray)
    requires second.SetReplace? || second.SetRtcpMux? || second.SetReceivedFrom?
    requires ArrayTarget(first) == ArrayTarget(second)
    ensures ArraysApplied(second, ArraysApplied(first, a)) == ArraysApplied(second, a)
  {
    match second {
      case SetReplace(_) =>
      case SetRtcpMux(_) =>
      case SetReceivedFrom(_, _) =>
    }
  }

  /** Of two overwriting options on the same parameter, the later one wins: running both
      is running the later one alone. */
  lemma LaterOverwriteWins(first: ParametrosOption, second: ParametrosOption, v: Request)
    requires Overwrites(second) && Target(first) == Target(second)
    ensures Run([first, second], v) == Run([second], v)
  {
    assert [first, second][1..] == [second];
    match second {
      case OnStrings(b) => LaterStringOptionWins(first.s, b, v.strs);
      case OnInts(b) =>
      case OnArrays(b) => LaterArrayOptionWins(first.a, b, v.arrays);
    }
  }

  /** `SetFlags` puts the given flags after the existing ones, in their order. */
  lemma SetFlagsAppends(flags: seq<V.ParamFlag>, a: ParamsOptStringArray)
    ensures var after := ArraysApplied(SetFlags(flags), a).flags;
      after[..|a.flags|] == a.flags && after[|a.flags|..] == flags
  {}

  /** A codec option adds exactly one flag per codec, its prefix followed by the codec
      name, in the codecs' order, after the existing flags. */
  lemma CodecOptionAppends(o: ArrayOption, a: ParamsOptStringArray)
    requires IsCodecOption(o)
    ensures var after := ArraysApplied(o, a).flags;
      && |after| == |a.flags| + |o.codecs|
      && after[..|a.flags|] == a.flags
      && forall i :: 0 <= i < |o.codecs| ==> after[|a.flags| + i] == CodecPrefix(o) + o.codecs[i]
  {}

  /** `DeleteSDES` and `EnableSDES` add one entry per suite, "no-" or "only-" followed by
      the suite, in the suites' order, after the existing entries. */
  lemma SdesOptionsAppend(suites: seq<V.CryptoSuite>, a: ParamsOptStringArray)
    ensures var deleted := ArraysApplied(DeleteSDES(suites), a).sdes;
      var enabled := ArraysApplied(EnableSDES(suites), a).sdes;
      && |deleted| == |enabled| == |a.sdes| + |suites|
      && deleted[..|a.sdes|] == a.sdes && enabled[..|a.sdes|] == a.sdes
      && (forall i :: 0 <= i < |suites| ==> deleted[|a.sdes| + i] == "no-" + suites[i])
      && (forall i :: 0 <= i < |suites| ==> enabled[|a.sdes| + i] == "only-" + suites[i])
  {}

  /** `DisablesSDES` adds exactly one entry, "off", after the existing ones. */
  lemma DisablesSdesAppendsOff(a: ParamsOptStringArray)
    ensures ArraysApplied(DisablesSDES, a).sdes == a.sdes + ["off"]
  {}

  /** After `SetReceivedFrom(af, addr)` the received-from list is exactly `[af, addr]`. */
  lemma ReceivedFromIsPair(af: V.AddressFamily, addr: string, a: ParamsOptStringArray)
    ensures ArrayValue(ArraysApplied(SetReceivedFrom(af, addr), a), ReceivedFrom) == Texts([af, addr])
  {}

  /** `SetMohFile` adds one source, the file in send-only mode, after the existing ones. */
  lemma SetMohFileAppends(file: string, a: ParamsOptStringArray)
    ensures var after := ArraysApplied(SetMohFile(file), a).moh;
      && |after| == |a.moh| + 1 && after[..|a.moh|] == a.moh
      && after[|a.moh|].file == file && after[|a.moh|].mode == "sendonly"
      && after[|a.moh|].blob == "" && after[|a.moh|].dbId == ""
      && after[|a.moh|].connection == ""
  {}

  /** The two packetisation options write different parameters: the offer's `ptime` and the
      answer's `ptime-reverse`. */
  lemma PtimeTargets(x: int, n: ParamsOptInt)
    ensures Tag(OfInts(IntTarget(SetPtimeCodecOffer(x)))) == "ptime"
    ensures Tag(OfInts(IntTarget(SetPtimeCodecAnswer(x)))) == "ptime-reverse"
    ensures IntsApplied(SetPtimeCodecOffer(x), n).ptime == x
    ensures IntsApplied(SetPtimeCodecAnswer(x), n).ptimeReverse == x
  {}

  /** Masking or transcoding every codec after PCMU adds exactly the hand-listed mask or
      transcode family of variables.go. */
  lemma MaskAndTranscodeFamilies(a: ParamsOptStringArray)
    ensures ArraysApplied(SetCodecMask(V.Codecs[1..]), a).flags == a.flags + V.CodecMaskFlags
    ensures ArraysApplied(SetCodecEncoder(V.Codecs[1..]), a).flags
      == a.flags + V.CodecTranscodeFlags
  {
    V.CodecMaskFamily();
    V.CodecTranscodeFamily();
  }

  /** Stripping or excepting every codec adds exactly the hand-listed strip or except family
      of variables.go. */
  lemma StripAndExceptFamilies(a: ParamsOptStringArray)
    ensures ArraysApplied(SetCodecStrip(V.Codecs), a).flags == a.flags + V.CodecStripFlags
    ensures ArraysApplied(SetCodecExcept(V.Codecs), a).flags == a.flags + V.CodecExceptFlags
  {
    V.CodecExceptStripFamilies();
  }

  /** Deleting or enabling every crypto suite adds exactly the hand-listed "no-" or "only-"
      family of variables.go. */
  lemma SdesFamilies(a: ParamsOptStringArray)
    ensures ArraysApplied(DeleteSDES(V.CryptoSuites), a).sdes == a.sdes + V.SdesNoSuites
    ensures ArraysApplied(EnableSDES(V.CryptoSuites), a).sdes == a.sdes + V.SdesOnlySuites
  {
    V.SdesNoFamily();
    V.SdesOnlyFamily();
  }
}
