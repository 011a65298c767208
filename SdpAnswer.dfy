/** The UDP answer preset of sdp_answer.go: `ProfilerRTP_UDP_Answer` builds a request with
    the given command around the caller's string parameters, switches the media to plain
    RTP/AVP (ICE removed, DTLS off, SDES preferred), demultiplexes RTCP, replaces the session
    connection and origin lines, and strips extmap and RTCP attributes. The string edits go
    through the caller's pointer, so the caller's parameters change too. */
module SdpAnswerPreset {
  import opened Wrappers
  import opened Bencode
  import opened RtpEngine
  import opened NgProtocol
  import V = Vocabulary

  /** The options of ng_protocol.go that the preset's edits coincide with; DTLS and the
      preferred SDES entry have no option there. */
  const AnswerOptions: seq<ParametrosOption> :=
    [ OnStrings(SetTransportProtocol(V.RtpAvp)),
      OnArrays(SetRtcpMux([V.RtcpDemux])),
      OnArrays(SetReplace([V.SessionConnection, V.Origin])),
      OnArrays(SetFlags([V.StripExtmap, V.NoRtcpAttribute])),
      OnStrings(ICERemove) ]

  /** The request the preset builds: the options above run on a fresh request, then DTLS
      turned off and SDES set to prefer. */
  function AnswerPreset(command: string, s: ParamsOptString): Request
  {
    var v := Run(AnswerOptions, Request(command, s, EmptyInts, EmptyArrays)).0;
    v.(strs := v.strs.(dtls := V.DtlsOff), arrays := v.arrays.(sdes := [V.SdesPrefer]))
  }

  /** `ProfilerRTP_UDP_Answer`. */
  method ProfilerRtpUdpAnswer(command: string, parametros: Ptr<ParamsOptString>)
    returns (request: RequestRtp)
    modifies parametros
    ensures fresh(request) && fresh(request.ints) && fresh(request.arrays)
    ensures request.command == command && request.strs == parametros
    ensures parametros.val
         == old(parametros.val).(transportProtocol := "RTP/AVP", ice := "remove", dtls := "off")
    ensures request.Value() == AnswerPreset(command, old(parametros.val))
  {
    ghost var before := parametros.val;
    var ints := new Ptr(EmptyInts);
    var arrays := new Ptr(EmptyArrays);
    request := new RequestRtp(command, parametros, ints, arrays);

    parametros.val := parametros.val.(transportProtocol := V.RtpAvp);

    var rtcpmux: seq<V.RtcpMux> := [];
    var replace: seq<V.ParamReplace> := [];
    var flags: seq<V.ParamFlag> := [];
    var sdes: seq<V.Sdes> := [];

    rtcpmux := rtcpmux + [V.RtcpDemux];
    replace := replace + [V.SessionConnection, V.Origin];
    flags := flags + [V.StripExtmap, V.NoRtcpAttribute];
    sdes := sdes + [V.SdesPrefer];

    request.arrays.val := request.arrays.val.(rtcpMux := rtcpmux);
    request.arrays.val := request.arrays.val.(replace := replace);
    request.arrays.val := request.arrays.val.(flags := flags);
    request.strs.val := request.strs.val.(ice := V.IceRemove);
    request.strs.val := request.strs.val.(dtls := V.DtlsOff);
    request.arrays.val := request.arrays.val.(sdes := sdes);
    AnswerPresetContents(command, before);
  }

  /** What the preset holds: the command given, the caller's string parameters with the
      transport, ICE and DTLS fields replaced, no integer parameter, and exactly the four
      lists below. */
  lemma {:induction false} AnswerPresetContents(command: string, s: ParamsOptString)
    ensures var r := AnswerPreset(command, s);
      && r.command == command
      && r.strs == s.(transportProtocol := "RTP/AVP", ice := "remove", dtls := "off")
      && r.ints == EmptyInts
      && r.arrays == EmptyArrays.(rtcpMux := ["demux"],
                                  replace := ["session-connection", "origin"],
                                  flags := ["strip-extmap", "no-rtcp-attribute"],
                                  sdes := ["prefer"])
  {
    var v0 := Request(command, s, EmptyInts, EmptyArrays);
    var v1 := Applied(AnswerOptions[0], v0);
    var v2 := Applied(AnswerOptions[1], v1);
    var v3 := Applied(AnswerOptions[2], v2);
    var v4 := Applied(AnswerOptions[3], v3);
    var v5 := Applied(AnswerOptions[4], v4);
    assert Run(AnswerOptions[4..], v4) == (v5, None);
    assert Run(AnswerOptions[3..], v3) == Run(AnswerOptions[4..], v4);
    assert Run(AnswerOptions[2..], v2) == Run(AnswerOptions[3..], v3);
    assert Run(AnswerOptions[1..], v1) == Run(AnswerOptions[2..], v2);
    assert Run(AnswerOptions, v0) == Run(AnswerOptions[1..], v1);
  }

  /** An entry made of a parameter's tag and its wire value is sent. */
  lemma SentAs(r: Request, p: Param, e: Entry)
    requires Tag(p) == e.key && Wire(ValueOf(r, p)) == Some(e.val)
    ensures e in Entries(r)
  {
    SentKeeps(r, p);
  }

  /** A request whose transport, ICE and DTLS fields hold the preset's values sends them. */
  lemma PresetStringsSent(r: Request)
    requires r.strs.transportProtocol == "RTP/AVP" && r.strs.ice == "remove"
    requires r.strs.dtls == "off"
    ensures var es := Entries(r);
      && Entry("transport-protocol", BStr("RTP/AVP")) in es
      && Entry("ICE", BStr("remove")) in es
      && Entry("DTLS", BStr("off")) in es
  {
    ghost var transport := Entry("transport-protocol", BStr("RTP/AVP"));
    ghost var ice := Entry("ICE", BStr("remove"));
    ghost var dtls := Entry("DTLS", BStr("off"));
    assert Tag(OfStrings(TransportProtocol)) == transport.key;
    assert Wire(ValueOf(r, OfStrings(TransportProtocol))) == Some(transport.val);
    assert Tag(OfStrings(ICE)) == ice.key;
    assert Wire(ValueOf(r, OfStrings(ICE))) == Some(ice.val);
    assert Tag(OfStrings(DTLS)) == dtls.key;
    assert Wire(ValueOf(r, OfStrings(DTLS))) == Some(dtls.val);
    SentAs(r, OfStrings(TransportProtocol), transport);
    SentAs(r, OfStrings(ICE), ice);
    SentAs(r, OfStrings(DTLS), dtls);
  }

  /** A request whose RTCP-mux and replace lists hold the preset's values sends them. */
  lemma PresetMuxAndReplaceSent(r: Request)
    requires r.arrays.rtcpMux == ["demux"] && r.arrays.replace == ["session-connection", "origin"]
    ensures var es := Entries(r);
      && Entry("rtcp-mux", BList([BStr("demux")])) in es
      && Entry("replace", BList([BStr("session-connection"), BStr("origin")])) in es
  {
    ghost var rtcpMux := Entry("rtcp-mux", BList([BStr("demux")]));
    ghost var replace := Entry("replace", BList([BStr("session-connection"), BStr("origin")]));
    assert StrList(["demux"]) == [BStr("demux")];
    assert StrList(["session-connection", "origin"]) == [BStr("session-connection"), BStr("origin")];
    assert Tag(OfArrays(RtcpMux)) == rtcpMux.key;
    assert Wire(ValueOf(r, OfArrays(RtcpMux))) == Some(rtcpMux.val);
    assert Tag(OfArrays(Replace)) == replace.key;
    assert Wire(ValueOf(r, OfArrays(Replace))) == Some(replace.val);
    SentAs(r, OfArrays(RtcpMux), rtcpMux);
    SentAs(r, OfArrays(Replace), replace);
  }

  /** A request whose flags and SDES lists hold the preset's values sends them. */
  lemma PresetFlagsAndSdesSent(r: Request)
    requires r.arrays.flags == ["strip-extmap", "no-rtcp-attribute"] && r.arrays.sdes == ["prefer"]
    ensures var es := Entries(r);
      && Entry("flags", BList([BStr("strip-extmap"), BStr("no-rtcp-attribute")])) in es
      && Entry("SDES", BList([BStr("prefer")])) in es
  {
    ghost var flags := Entry("flags", BList([BStr("strip-extmap"), BStr("no-rtcp-attribute")]));
    ghost var sdes := Entry("SDES", BList([BStr("prefer")]));
    assert StrList(["strip-extmap", "no-rtcp-attribute"])
        == [BStr("strip-extmap"), BStr("no-rtcp-attribute")];
    assert StrList(["prefer"]) == [BStr("prefer")];
    assert Tag(OfArrays(Flags)) == flags.key;
    assert Wire(ValueOf(r, OfArrays(Flags))) == Some(flags.val);
    assert Tag(OfArrays(SDES)) == sdes.key;
    assert Wire(ValueOf(r, OfArrays(SDES))) == Some(sdes.val);
    SentAs(r, OfArrays(Flags), flags);
    SentAs(r, OfArrays(SDES), sdes);
  }

  /** On the wire, the preset sends its command, the transport "RTP/AVP", ICE "remove",
      DTLS "off", and its four lists, each in its order. */
  lemma AnswerPresetSends(command: string, s: ParamsOptString)
    ensures var es := Entries(AnswerPreset(command, s));
      && Entry("command", BStr(command)) in es
      && Entry("transport-protocol", BStr("RTP/AVP")) in es
      && Entry("ICE", BStr("remove")) in es
      && Entry("DTLS", BStr("off")) in es
      && Entry("rtcp-mux", BList([BStr("demux")])) in es
      && Entry("replace", BList([BStr("session-connection"), BStr("origin")])) in es
      && Entry("flags", BList([BStr("strip-extmap"), BStr("no-rtcp-attribute")])) in es
      && Entry("SDES", BList([BStr("prefer")])) in es
  {
    var r := AnswerPreset(command, s);
    AnswerPresetContents(command, s);
    CommandAlwaysSent(r);
    PresetStringsSent(r);
    PresetMuxAndReplaceSent(r);
    PresetFlagsAndSdesSent(r);
  }

  /** The preset sends no integer parameter. */
  lemma AnswerPresetSendsNoInts(command: string, s: ParamsOptString, f: IntParam)
    ensures Wire(ValueOf(AnswerPreset(command, s), OfInts(f))).None?
  {
    AnswerPresetContents(command, s);
    EmptyIntOmitted(f);
  }
}
