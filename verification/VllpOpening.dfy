/** Opening the first channel of a session, step by step: what becomes of a
    channel without a name, and of a refusal that reads as an acceptance. */
module VllpOpening {
  import opened Common
  import opened Crc32
  import opened VllpFrames
  import opened VllpEndpoint
  import opened VllpSession
  import opened VllpTraces

  // ---------------------------------------------------------------------
  // The ends after each step
  // ---------------------------------------------------------------------

  predicate Short(name: bytes) { |name| < MTU - 5 }

  function Client0(session: word, connected: bool): (e: Endpoint)
    ensures Fit(e)
  {
    hide Iv;
    Client(session, connected, 0x40, None, 1, 0xFFFF, USER_IDS, [], [],
      map[CMC := Ch(false, session, 1, Established, false, [], [], [], 0, 0, [])])
  }

  function Server0(session: word): (e: Endpoint)
    ensures Fit(e)
  {
    hide Iv;
    Server(session, 0x40, None, 1, 0xFFFF, [], map[CMC := Ch(true, session, 1, Established, false, [], [], [], 0, 0, [])])
  }

  function Wanting(session: word, name: bytes, re: bool): (e: Endpoint)
    ensures Fit(e)
  {
    hide Iv;
    Client(session, true, 0x40, None, 1, 0xFFFF, USER_IDS - {0}, [0], [],
      map[CMC := Ch(false, session, 1, Established, false, [], [], [], 0, 0, []), 0 := MakeChan(PendingOpen, re, name, 0, 0)])
  }

  function Asking(session: word, name: bytes, re: bool): (e: Endpoint)
    ensures Fit(e)
  {
    hide Iv, OpenMessage;
    Client(session, true, 0x40, None, 2, 0xFFFF, USER_IDS - {0}, [], [CMC],
      map[CMC := Ch(false, session, 1, Active, false, [], [], [OpenMessage(0, name)], 0, 0, []),
          0 := Ch(false, session, 2, OpenSent, re, name, [], [], 0, 0, [])])
  }

  function OpenPacket(session: word, name: bytes): bytes { Packet(CMC, Iv(false, session, 1, 0), OpenMessage(0, name), 0xC0) }

  function HasAsked(session: word, name: bytes, re: bool): (e: Endpoint)
    requires Short(name)
    ensures Fit(e)
  {
    hide Iv, OpenMessage, Packet;
    OpenIs(0, name);
    PacketSize(CMC, Iv(false, session, 1, 0), OpenMessage(0, name), 0xC0);
    Client(session, true, 0xC0, Some(OpenPacket(session, name)), 2, 0xBFFF, USER_IDS - {0}, [], [],
      map[CMC := Ch(false, session, 1, Established, false, [], [], [], 1, 0, []),
          0 := Ch(false, session, 2, OpenSent, re, name, [], [], 0, 0, [])])
  }

  /** The server's channels but for the control channel, by its verdict. */
  function With(verdict: word, cmc: Chan, ch: Chan): map<nat, Chan> { if verdict == 0 then map[CMC := cmc, 0 := ch] else map[CMC := cmc] }

  function Deciding(session: word, name: bytes, verdict: word): (e: Endpoint)
    ensures Fit(e)
  {
    hide Iv, ResponseMessage;
    Server(session, 0x00, None, 2, 0xFFFF, [CMC],
      With(verdict, Ch(true, session, 1, Active, false, [], [], [ResponseMessage(0, verdict)], 0, 1, []),
           Ch(true, session, 2, Established, false, name, [], [], 0, 0, [])))
  }

  function AnswerPacket(session: word, verdict: word): bytes { Packet(CMC, Iv(true, session, 1, 0), ResponseMessage(0, verdict), 0x80) }

  function Decided(session: word, name: bytes, verdict: word): (e: Endpoint)
    ensures Fit(e)
  {
    hide Iv, Packet;
    PacketSize(CMC, Iv(true, session, 1, 0), ResponseMessage(0, verdict), 0x80);
    Server(session, 0x80, Some(AnswerPacket(session, verdict)), 2, 0xBFFF, [],
      With(verdict, Ch(true, session, 1, Established, false, [], [], [], 1, 1, []),
           Ch(true, session, 2, Established, false, name, [], [], 0, 0, [])))
  }

  // ---------------------------------------------------------------------
  // The steps
  // ---------------------------------------------------------------------

  lemma Greets(session: word)
    ensures Handles(Client0(session, false), AckPacket(Server0(session)), 0, Client0(session, true))
  {
    hide Iv, AckPacket, HandleRx, ScanReady;
    Flows();
    RxFirst(Client0(session, false), Server0(session), 0);
    AckBytes(Server0(session));
  }

  lemma Wants(session: word, name: bytes, re: bool)
    ensures Creates(Client0(session, true), name, re, Wanting(session, name, re))
  {
    hide Iv, ScanReady;
    assert LowestFree(Client0(session, true).freeIds, 0) == Some(0);
    assert [] + [0] == [0];
    assert CreateChannel(Client0(session, true), name, re).0.chans == Wanting(session, name, re).chans;
  }

  lemma Asks(session: word, name: bytes, re: bool)
    ensures Opens(Wanting(session, name, re), Asking(session, name, re))
  {
    hide Iv, NextIv, OpenMessage, ChannelIv, Not, ScanReady;
    assert [] + [OpenMessage(0, name)] == [OpenMessage(0, name)];
    assert [] + [CMC] == [CMC];
    IvStart(session, 2);
    Counts();
    assert OpenPending(Wanting(session, name, re)).chans == Asking(session, name, re).chans;
  }

  lemma AsksOut(session: word, name: bytes, re: bool)
    requires Short(name)
    ensures Transmits(Asking(session, name, re), HasAsked(session, name, re), OpenPacket(session, name))
  {
    hide Iv, Packet, Frag, NextIv, OpenMessage, Tx, FlowBit, SetFlow, ScanReady;
    Flows();
    IvNext(false, session, 1, 0);
    OpenIs(0, name);
    TxOnly(Asking(session, name, re), OpenMessage(0, name));
    assert [CMC][1..] == [];
    assert Tx(Asking(session, name, re), true, true).e.chans == HasAsked(session, name, re).chans;
  }

  lemma Decides(session: word, name: bytes, verdict: word)
    requires name != []
    ensures Handles(Server0(session), OpenPacket(session, name), verdict, Deciding(session, name, verdict))
  {
    hide Iv, Packet, NextIv, OpenMessage, ResponseMessage, HandleRx, ChannelIv, Not, SetFlow, ScanReady, Frag;
    Flows();
    PacketSize(CMC, Iv(false, session, 1, 0), OpenMessage(0, name), 0xC0);
    IvNext(false, session, 1, 0);
    assert [] + [ResponseMessage(0, verdict)] == [ResponseMessage(0, verdict)];
    assert [] + [CMC] == [CMC];
    IvStart(session, 2);
    Counts();
    RxOpen(Server0(session), Iv(false, session, 1, 0), 0, name, 0xC0, verdict);
    assert HandleRx(Server0(session), OpenPacket(session, name), verdict).e.chans == Deciding(session, name, verdict).chans;
  }

  lemma DecidesOut(session: word, name: bytes, verdict: word)
    ensures Transmits(Deciding(session, name, verdict), Decided(session, name, verdict), AnswerPacket(session, verdict))
  {
    hide Iv, Packet, Frag, NextIv, Tx, FlowBit, SetFlow, ScanReady;
    Flows();
    IvNext(true, session, 1, 0);
    assert |ResponseMessage(0, verdict)| == 3;
    TxOnly(Deciding(session, name, verdict), ResponseMessage(0, verdict));
    assert [CMC][1..] == [];
    assert Tx(Deciding(session, name, verdict), true, true).e.chans == Decided(session, name, verdict).chans;
  }

  // ---------------------------------------------------------------------
  // The runs
  // ---------------------------------------------------------------------

  function Start(session: word): System { Init(false, MTU, session) }

  lemma Starts(session: word)
    ensures Shows(Start(session), Client0(session, false), Server0(session), [], [AckPacket(Server0(session))])
  {
    hide ChannelIv, Not, AckPacket, Iv, ScanReady;
    IvStart(session, 1);
    var y := Start(session);
    assert StoredMtu(false, MTU) == MTU;
    assert y.c.e.chans == Client0(session, false).chans && y.s.e.chans == Server0(session).chans;
  }

  function OpeningActions(name: bytes, re: bool): seq<Action> {
    [ClientRx, ClientCreate(name, re), ClientOpen, ClientTx(true, true)]
  }

  lemma Opening(session: word, name: bytes, re: bool)
    requires Short(name)
    ensures Shows(Play(Start(session), OpeningActions(name, re)), HasAsked(session, name, re), Server0(session), [OpenPacket(session, name)], [])
  {
    hide Shows, Step, Start, Play, Client0, Server0, Wanting, Asking, HasAsked, OpenPacket, AckPacket, Transmits, Handles, Creates, Opens;
    var y := Start(session);
    Starts(session);
    Greets(session);
    assert [AckPacket(Server0(session))] + [] == [AckPacket(Server0(session))];
    DoClientRx(y, Client0(session, false), Server0(session), [], AckPacket(Server0(session)), [], Client0(session, true));
    var y1 := Step(y, ClientRx);
    Wants(session, name, re);
    DoCreate(y1, Client0(session, true), Server0(session), [], [], name, re, Wanting(session, name, re));
    var y2 := Step(y1, ClientCreate(name, re));
    Asks(session, name, re);
    DoOpen(y2, Wanting(session, name, re), Server0(session), [], [], Asking(session, name, re));
    var y3 := Step(y2, ClientOpen);
    AsksOut(session, name, re);
    DoClientTx(y3, Asking(session, name, re), Server0(session), [], [], HasAsked(session, name, re), OpenPacket(session, name));
    assert [] + [OpenPacket(session, name)] == [OpenPacket(session, name)];
    PlayFour(y, ClientRx, ClientCreate(name, re), ClientOpen, ClientTx(true, true));
  }

  /** A client that opens its first channel without a name loses the session,
      whatever the server would have said. */
  lemma NamelessRun(session: word, re: bool, verdict: word)
    ensures Run(Start(session), OpeningActions([], re) + [ServerRx(verdict)]).broken
  {
    hide Shows, Step, Start, Play, Run, HasAsked, AckPacket, Transmits, Handles, Packet, Iv, HandleRx, NextIv, OpenMessage;
    Opening(session, [], re);
    var y := Play(Start(session), OpeningActions([], re));
    var p := OpenPacket(session, []);
    assert [p] + [] == [p];
    Flows();
    OpenIs(0, []);
    PacketSize(CMC, Iv(false, session, 1, 0), OpenMessage(0, []), 0xC0);
    RxControl(Server0(session), Iv(false, session, 1, 0), OpenMessage(0, []), 0xC0, verdict);
    DoServerFail(y, HasAsked(session, [], re), Server0(session), p, [], [], verdict);
    PlayJoin(Start(session), OpeningActions([], re), [ServerRx(verdict)]);
    PlayOne(y, ServerRx(verdict));
    PlayIsRun(Start(session), OpeningActions([], re) + [ServerRx(verdict)]);
  }

  lemma Deciding5(session: word, name: bytes, re: bool, verdict: word)
    requires Short(name) && name != []
    ensures Shows(Play(Start(session), OpeningActions(name, re) + [ServerRx(verdict)]), HasAsked(session, name, re), Deciding(session, name, verdict), [], [])
  {
    hide Shows, Step, Start, Play, Server0, HasAsked, Deciding, OpenPacket, Transmits, Handles, OpeningActions;
    Opening(session, name, re);
    var y := Play(Start(session), OpeningActions(name, re));
    var p := OpenPacket(session, name);
    assert [p] + [] == [p];
    Decides(session, name, verdict);
    DoServerRx(y, HasAsked(session, name, re), Server0(session), p, [], [], verdict, Deciding(session, name, verdict));
    PlayJoin(Start(session), OpeningActions(name, re), [ServerRx(verdict)]);
    PlayOne(y, ServerRx(verdict));
  }

  /** The client's end once it has the answer, whatever it says. */
  lemma Learns(session: word, name: bytes, verdict: word)
    requires Short(name)
    ensures var r := HandleRx(HasAsked(session, name, false), AnswerPacket(session, verdict), 0);
      r.code == Ok && (Usable(r.e, 0) <==> SaysAccepted(verdict))
  {
    hide Iv, Packet, NextIv, HandleRx, LowByte, DropByte, Frag, ScanReady, OpenPacket, SetFlow;
    Flows();
    var m := ResponseMessage(0, verdict);
    RxControl(HasAsked(session, name, false), Iv(true, session, 1, 0), m, 0x80, 0);
    assert m[0] == 0x20 && m[1..] == [LowByte(verdict), LowByte(DropByte(verdict))];
    assert Opcode(0x20) == 2 && ChannelOf(0x20) == 0;
  }

  lemma Decided6(session: word, name: bytes, verdict: word)
    requires Short(name) && name != []
    ensures Shows(Play(Start(session), VerdictActions(name, verdict)), HasAsked(session, name, false), Decided(session, name, verdict), [], [AnswerPacket(session, verdict)])
  {
    hide Shows, Step, Start, Play, HasAsked, AnswerPacket, Transmits, OpeningActions, Deciding, Decided;
    Deciding5(session, name, false, verdict);
    var a5 := OpeningActions(name, false) + [ServerRx(verdict)];
    var y5 := Play(Start(session), a5);
    var p := AnswerPacket(session, verdict);
    DecidesOut(session, name, verdict);
    assert [] + [p] == [p];
    DoServerTx(y5, HasAsked(session, name, false), Deciding(session, name, verdict), [], [], Decided(session, name, verdict), p);
    PlayJoin(Start(session), a5, [ServerTx(true, true)]);
    PlayOne(y5, ServerTx(true, true));
  }

  function VerdictActions(name: bytes, verdict: word): seq<Action> {
    OpeningActions(name, false) + [ServerRx(verdict)] + [ServerTx(true, true)]
  }

  lemma Tables(session: word, name: bytes, verdict: word)
    requires Short(name)
    ensures (0 in Decided(session, name, verdict).chans <==> verdict == 0) && CMC in HasAsked(session, name, false).chans
    ensures |AnswerPacket(session, verdict)| >= 1
  {
    hide Iv, Packet, OpenMessage, ResponseMessage, OpenPacket;
    PacketSize(CMC, Iv(true, session, 1, 0), ResponseMessage(0, verdict), 0x80);
  }

  /** One open, one answer: what each end has then depends on the verdict alone,
      and the client has a usable channel that the server does not have if and
      only if the verdict is a refusal whose low sixteen bits are zero. */
  lemma VerdictRun(session: word, name: bytes, verdict: word)
    requires Short(name) && name != []
    ensures var y := Run(Start(session), VerdictActions(name, verdict) + [ClientRx]);
      && !y.broken && (0 in y.s.e.chans <==> verdict == 0) && (Usable(y.c.e, 0) <==> SaysAccepted(verdict))
      && ((Usable(y.c.e, 0) && 0 !in y.s.e.chans) <==> (SaysAccepted(verdict) && verdict != 0))
  {
    hide Shows, Step, Start, Play, Run, HasAsked, Decided, AnswerPacket, VerdictActions, HandleRx, SaysAccepted, Usable;
    Decided6(session, name, verdict);
    var y := Play(Start(session), VerdictActions(name, verdict));
    Tables(session, name, verdict);
    Learns(session, name, verdict);
    LastRx(y, HasAsked(session, name, false), Decided(session, name, verdict), AnswerPacket(session, verdict));
    PlayJoin(Start(session), VerdictActions(name, verdict), [ClientRx]);
    PlayOne(y, ClientRx);
    PlayIsRun(Start(session), VerdictActions(name, verdict) + [ClientRx]);
  }

  /** The verdict 0x10000 refuses, and reads as an acceptance. */
  lemma MisreadRun(session: word)
    ensures var y := Run(Start(session), VerdictActions([65], 0x10000) + [ClientRx]); Usable(y.c.e, 0) && 0 !in y.s.e.chans
  {
    hide Run, Start, VerdictActions, Usable;
    VerdictRun(session, [65], 0x10000);
    ReadsAccepted();
  }

  lemma ReadsAccepted()
    ensures SaysAccepted(0x10000)
  {
  }

  lemma LastRx(y: System, c: Endpoint, s: Endpoint, w: bytes)
    requires Shows(y, c, s, [], [w]) && CMC in c.chans && |w| >= 1 && HandleRx(c, w, 0).code == Ok
    ensures var z := Step(y, ClientRx); !z.broken && z.s.e == s && z.c.e == HandleRx(c, w, 0).e
  {
    hide HandleRx, ScanReady, Takes, Receive, Norm;
    assert Wires(y.sc)[0] == w && w[..|w|] == w;
  }
}
