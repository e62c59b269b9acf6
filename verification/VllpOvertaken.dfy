/** A run in which data overtakes the acceptance of its channel, from the
    handshake on: three channels are opened, and the server's answers to the last
    two are still queued when it sends on the third. */
module VllpOvertaken {
  import opened Common
  import opened Crc32
  import opened VllpFrames
  import opened VllpEndpoint
  import opened VllpSession
  import opened VllpRuns
  import opened VllpTraces
  import opened VllpOpening

  // ---------------------------------------------------------------------
  // The ends after each step, numbered from the handshake
  // ---------------------------------------------------------------------

  function S06(session: word): (e: Endpoint)
    ensures Fit(e)
  {
    hide Iv, Packet, Frag, OpenMessage, ResponseMessage;
    Server(session, 0x00, None, 2, 0xFFFF, [CMC, 0],
      map[CMC := Ch(true, session, 1, Active, false, [], [], [ResponseMessage(0, 0)], 0, 1, []),
          0 := Ch(true, session, 2, Active, false, [65], [], [DATA], 0, 0, [])])
  }

  function S07(session: word): (e: Endpoint)
    ensures Fit(e)
  {
    hide Iv, Packet, Frag, OpenMessage, ResponseMessage;
    AnswerIs(0);
    PacketSize(CMC, Iv(true, session, 1, 0), ResponseMessage(0, 0), 0x80);
    Server(session, 0x80, Some(W07(session)), 2, 0xBFFF, [0],
      map[CMC := Ch(true, session, 1, Established, false, [], [], [], 1, 1, []),
          0 := Ch(true, session, 2, Active, false, [65], [], [DATA], 0, 0, [])])
  }

  function C09(session: word): (e: Endpoint)
    ensures Fit(e)
  {
    hide Iv, Packet, Frag, OpenMessage, ResponseMessage;
    Client(session, true, 0x80, None, 2, 0xFFFF, USER_IDS - {0}, [], [],
      map[CMC := Ch(false, session, 1, Established, false, [], [], [], 1, 1, []),
          0 := Ch(false, session, 2, Established, false, [65], [], [], 0, 0, [Ready])])
  }

  function C10(session: word): (e: Endpoint)
    ensures Fit(e)
  {
    hide Iv, Packet, Frag, OpenMessage, ResponseMessage;
    Client(session, true, 0x80, None, 2, 0xFFFF, USER_IDS - {0} - {1}, [1], [],
      map[CMC := Ch(false, session, 1, Established, false, [], [], [], 1, 1, []),
          0 := Ch(false, session, 2, Established, false, [65], [], [], 0, 0, [Ready]),
          1 := MakeChan(PendingOpen, false, [66], 0, 0)])
  }

  function C11(session: word): (e: Endpoint)
    ensures Fit(e)
  {
    hide Iv, Packet, Frag, OpenMessage, ResponseMessage;
    Client(session, true, 0x80, None, 3, 0xFFFF, USER_IDS - {0} - {1}, [], [CMC],
      map[CMC := Ch(false, session, 1, Active, false, [], [], [OpenMessage(1, [66])], 1, 1, []),
          0 := Ch(false, session, 2, Established, false, [65], [], [], 0, 0, [Ready]),
          1 := Ch(false, session, 3, OpenSent, false, [66], [], [], 0, 0, [])])
  }

  function C12(session: word): (e: Endpoint)
    ensures Fit(e)
  {
    hide Iv, Packet, Frag, OpenMessage, ResponseMessage;
    OpenIs(1, [66]);
    PacketSize(CMC, Iv(false, session, 1, 1), OpenMessage(1, [66]), 0x00);
    Client(session, true, 0x00, Some(W12(session)), 3, 0xBFFF, USER_IDS - {0} - {1}, [], [],
      map[CMC := Ch(false, session, 1, Established, false, [], [], [], 2, 1, []),
          0 := Ch(false, session, 2, Established, false, [65], [], [], 0, 0, [Ready]),
          1 := Ch(false, session, 3, OpenSent, false, [66], [], [], 0, 0, [])])
  }

  function C13(session: word): (e: Endpoint)
    ensures Fit(e)
  {
    hide Iv, Packet, Frag, OpenMessage, ResponseMessage;
    OpenIs(1, [66]);
    PacketSize(CMC, Iv(false, session, 1, 1), OpenMessage(1, [66]), 0x00);
    Client(session, true, 0x00, Some(W12(session)), 3, 0xFFFF, USER_IDS - {0} - {1}, [], [],
      map[CMC := Ch(false, session, 1, Established, false, [], [], [], 2, 1, []),
          0 := Ch(false, session, 2, Established, false, [65], [], [], 0, 0, [Ready]),
          1 := Ch(false, session, 3, OpenSent, false, [66], [], [], 0, 0, [])])
  }

  function S14(session: word): (e: Endpoint)
    ensures Fit(e)
  {
    hide Iv, Packet, Frag, OpenMessage, ResponseMessage;
    Server(session, 0xC0, None, 3, 0xFFFF, [0, CMC],
      map[CMC := Ch(true, session, 1, Active, false, [], [], [ResponseMessage(1, 0)], 1, 2, []),
          0 := Ch(true, session, 2, Active, false, [65], [], [DATA], 0, 0, []),
          1 := Ch(true, session, 3, Established, false, [66], [], [], 0, 0, [])])
  }

  function S15(session: word): (e: Endpoint)
    ensures Fit(e)
  {
    hide Iv, Packet, Frag, OpenMessage, ResponseMessage;
    PacketSize(0, Iv(true, session, 2, 0), DATA, 0x40);
    Server(session, 0x40, Some(W15(session)), 3, 0xFFFE, [CMC],
      map[CMC := Ch(true, session, 1, Active, false, [], [], [ResponseMessage(1, 0)], 1, 2, []),
          0 := Ch(true, session, 2, Established, false, [65], [], [], 1, 0, []),
          1 := Ch(true, session, 3, Established, false, [66], [], [], 0, 0, [])])
  }

  function C16(session: word): (e: Endpoint)
    ensures Fit(e)
  {
    hide Iv, Packet, Frag, OpenMessage, ResponseMessage;
    Client(session, true, 0x40, None, 3, 0xFFFF, USER_IDS - {0} - {1}, [], [],
      map[CMC := Ch(false, session, 1, Established, false, [], [], [], 2, 1, []),
          0 := Ch(false, session, 2, Established, false, [65], [], [], 0, 1, [Ready, Message(DATA)]),
          1 := Ch(false, session, 3, OpenSent, false, [66], [], [], 0, 0, [])])
  }

  function C17(session: word): (e: Endpoint)
    ensures Fit(e)
  {
    hide Iv, Packet, Frag, OpenMessage, ResponseMessage;
    Client(session, true, 0x40, None, 3, 0xFFFF, USER_IDS - {0} - {1} - {2}, [2], [],
      map[CMC := Ch(false, session, 1, Established, false, [], [], [], 2, 1, []),
          0 := Ch(false, session, 2, Established, false, [65], [], [], 0, 1, [Ready, Message(DATA)]),
          1 := Ch(false, session, 3, OpenSent, false, [66], [], [], 0, 0, []),
          2 := MakeChan(PendingOpen, true, [67], 0, 0)])
  }

  function C18(session: word): (e: Endpoint)
    ensures Fit(e)
  {
    hide Iv, Packet, Frag, OpenMessage, ResponseMessage;
    Client(session, true, 0x40, None, 4, 0xFFFF, USER_IDS - {0} - {1} - {2}, [], [CMC],
      map[CMC := Ch(false, session, 1, Active, false, [], [], [OpenMessage(2, [67])], 2, 1, []),
          0 := Ch(false, session, 2, Established, false, [65], [], [], 0, 1, [Ready, Message(DATA)]),
          1 := Ch(false, session, 3, OpenSent, false, [66], [], [], 0, 0, []),
          2 := Ch(false, session, 4, OpenSent, true, [67], [], [], 0, 0, [])])
  }

  function C19(session: word): (e: Endpoint)
    ensures Fit(e)
  {
    hide Iv, Packet, Frag, OpenMessage, ResponseMessage;
    OpenIs(2, [67]);
    PacketSize(CMC, Iv(false, session, 1, 2), OpenMessage(2, [67]), 0xC0);
    Client(session, true, 0xC0, Some(W19(session)), 4, 0xBFFF, USER_IDS - {0} - {1} - {2}, [], [],
      map[CMC := Ch(false, session, 1, Established, false, [], [], [], 3, 1, []),
          0 := Ch(false, session, 2, Established, false, [65], [], [], 0, 1, [Ready, Message(DATA)]),
          1 := Ch(false, session, 3, OpenSent, false, [66], [], [], 0, 0, []),
          2 := Ch(false, session, 4, OpenSent, true, [67], [], [], 0, 0, [])])
  }

  function S20(session: word): (e: Endpoint)
    ensures Fit(e)
  {
    hide Iv, Packet, Frag, OpenMessage, ResponseMessage;
    Server(session, 0x00, None, 4, 0xFFFE, [CMC],
      map[CMC := Ch(true, session, 1, Active, false, [], [], [ResponseMessage(1, 0), ResponseMessage(2, 0)], 1, 3, []),
          0 := Ch(true, session, 2, Established, false, [65], [], [], 1, 0, []),
          1 := Ch(true, session, 3, Established, false, [66], [], [], 0, 0, []),
          2 := Ch(true, session, 4, Established, false, [67], [], [], 0, 0, [])])
  }

  function S21(session: word): (e: Endpoint)
    ensures Fit(e)
  {
    hide Iv, Packet, Frag, OpenMessage, ResponseMessage;
    Server(session, 0x00, None, 4, 0xFFFE, [CMC, 2],
      map[CMC := Ch(true, session, 1, Active, false, [], [], [ResponseMessage(1, 0), ResponseMessage(2, 0)], 1, 3, []),
          0 := Ch(true, session, 2, Established, false, [65], [], [], 1, 0, []),
          1 := Ch(true, session, 3, Established, false, [66], [], [], 0, 0, []),
          2 := Ch(true, session, 4, Active, false, [67], [], [DATA], 0, 0, [])])
  }

  function S22(session: word): (e: Endpoint)
    ensures Fit(e)
  {
    hide Iv, Packet, Frag, OpenMessage, ResponseMessage;
    AnswerIs(1);
    PacketSize(CMC, Iv(true, session, 1, 1), ResponseMessage(1, 0), 0x80);
    AnswerIs(2);
    PacketSize(CMC, Iv(true, session, 1, 2), ResponseMessage(2, 0), 0x80);
    Server(session, 0x80, Some(W22(session)), 4, 0xBFFE, [2, CMC],
      map[CMC := Ch(true, session, 1, Active, false, [], [Frag(CMC, Iv(true, session, 1, 2), ResponseMessage(2, 0))], [], 3, 3, []),
          0 := Ch(true, session, 2, Established, false, [65], [], [], 1, 0, []),
          1 := Ch(true, session, 3, Established, false, [66], [], [], 0, 0, []),
          2 := Ch(true, session, 4, Active, false, [67], [], [DATA], 0, 0, [])])
  }

  function C23(session: word): (e: Endpoint)
    ensures Fit(e)
  {
    hide Iv, Packet, Frag, OpenMessage, ResponseMessage;
    Client(session, true, 0x80, None, 4, 0xFFFF, USER_IDS - {0} - {1} - {2}, [], [],
      map[CMC := Ch(false, session, 1, Established, false, [], [], [], 3, 2, []),
          0 := Ch(false, session, 2, Established, false, [65], [], [], 0, 1, [Ready, Message(DATA)]),
          1 := Ch(false, session, 3, Established, false, [66], [], [], 0, 0, [Ready]),
          2 := Ch(false, session, 4, OpenSent, true, [67], [], [], 0, 0, [])])
  }

  function S25(session: word): (e: Endpoint)
    ensures Fit(e)
  {
    hide Iv, Packet, Frag, OpenMessage, ResponseMessage;
    AnswerIs(2);
    PacketSize(CMC, Iv(true, session, 1, 2), ResponseMessage(2, 0), 0x80);
    Server(session, 0x80, None, 4, 0xFFFF, [2, CMC],
      map[CMC := Ch(true, session, 1, Active, false, [], [Frag(CMC, Iv(true, session, 1, 2), ResponseMessage(2, 0))], [], 3, 3, []),
          0 := Ch(true, session, 2, Established, false, [65], [], [], 1, 0, []),
          1 := Ch(true, session, 3, Established, false, [66], [], [], 0, 0, []),
          2 := Ch(true, session, 4, Active, false, [67], [], [DATA], 0, 0, [])])
  }

  function S26(session: word): (e: Endpoint)
    ensures Fit(e)
  {
    hide Iv, Packet, Frag, OpenMessage, ResponseMessage;
    PacketSize(2, Iv(true, session, 4, 0), DATA, 0x00);
    AnswerIs(2);
    PacketSize(CMC, Iv(true, session, 1, 2), ResponseMessage(2, 0), 0x00);
    Server(session, 0x00, Some(W26(session)), 4, 0xFFFB, [CMC],
      map[CMC := Ch(true, session, 1, Active, false, [], [Frag(CMC, Iv(true, session, 1, 2), ResponseMessage(2, 0))], [], 3, 3, []),
          0 := Ch(true, session, 2, Established, false, [65], [], [], 1, 0, []),
          1 := Ch(true, session, 3, Established, false, [66], [], [], 0, 0, []),
          2 := Ch(true, session, 4, Established, false, [67], [], [], 1, 0, [])])
  }

  function C27(session: word): (e: Endpoint)
    ensures Fit(e)
  {
    hide Iv, Packet, Frag, OpenMessage, ResponseMessage;
    Client(session, true, 0xC0, None, 4, 0xFFFF, USER_IDS - {0} - {1} - {2}, [], [],
      map[CMC := Ch(false, session, 1, Established, false, [], [], [], 3, 2, []),
          0 := Ch(false, session, 2, Established, false, [65], [], [], 0, 1, [Ready, Message(DATA)]),
          1 := Ch(false, session, 3, Established, false, [66], [], [], 0, 0, [Ready]),
          2 := Ch(false, session, 4, OpenSent, true, [67], [], [], 0, 1, [Message(DATA)])])
  }

  function S29(session: word): (e: Endpoint)
    ensures Fit(e)
  {
    hide Iv, Packet, Frag, OpenMessage, ResponseMessage;
    AnswerIs(2);
    PacketSize(CMC, Iv(true, session, 1, 2), ResponseMessage(2, 0), 0x00);
    Server(session, 0x00, None, 4, 0xFFFF, [CMC],
      map[CMC := Ch(true, session, 1, Active, false, [], [Frag(CMC, Iv(true, session, 1, 2), ResponseMessage(2, 0))], [], 3, 3, []),
          0 := Ch(true, session, 2, Established, false, [65], [], [], 1, 0, []),
          1 := Ch(true, session, 3, Established, false, [66], [], [], 0, 0, []),
          2 := Ch(true, session, 4, Established, false, [67], [], [], 1, 0, [])])
  }

  function S30(session: word): (e: Endpoint)
    ensures Fit(e)
  {
    hide Iv, Packet, Frag, OpenMessage, ResponseMessage;
    AnswerIs(2);
    PacketSize(CMC, Iv(true, session, 1, 2), ResponseMessage(2, 0), 0x80);
    Server(session, 0x80, Some(W30(session)), 4, 0xBFFF, [],
      map[CMC := Ch(true, session, 1, Established, false, [], [], [], 3, 3, []),
          0 := Ch(true, session, 2, Established, false, [65], [], [], 1, 0, []),
          1 := Ch(true, session, 3, Established, false, [66], [], [], 0, 0, []),
          2 := Ch(true, session, 4, Established, false, [67], [], [], 1, 0, [])])
  }

  function C31(session: word): (e: Endpoint)
    ensures Fit(e)
  {
    hide Iv, Packet, Frag, OpenMessage, ResponseMessage;
    Client(session, true, 0x80, None, 4, 0xFFFF, USER_IDS - {0} - {1} - {2}, [], [],
      map[CMC := Ch(false, session, 1, Established, false, [], [], [], 3, 3, []),
          0 := Ch(false, session, 2, Established, false, [65], [], [], 0, 1, [Ready, Message(DATA)]),
          1 := Ch(false, session, 3, Established, false, [66], [], [], 0, 0, [Ready]),
          2 := Ch(false, session, 4, Established, true, [67], [], [], 0, 1, [Ready])])
  }

  // ---------------------------------------------------------------------
  // The packets
  // ---------------------------------------------------------------------

  function W07(session: word): bytes { Packet(CMC, Iv(true, session, 1, 0), ResponseMessage(0, 0), 0x80) }

  function W12(session: word): bytes { Packet(CMC, Iv(false, session, 1, 1), OpenMessage(1, [66]), 0x00) }

  function W15(session: word): bytes { Packet(0, Iv(true, session, 2, 0), DATA, 0x40) }

  function W19(session: word): bytes { Packet(CMC, Iv(false, session, 1, 2), OpenMessage(2, [67]), 0xC0) }

  function W22(session: word): bytes { Packet(CMC, Iv(true, session, 1, 1), ResponseMessage(1, 0), 0x80) }

  function W26(session: word): bytes { Packet(2, Iv(true, session, 4, 0), DATA, 0x00) }

  function W30(session: word): bytes { Packet(CMC, Iv(true, session, 1, 2), ResponseMessage(2, 0), 0x80) }

  // ---------------------------------------------------------------------
  // The steps
  // ---------------------------------------------------------------------

  lemma Step06(session: word)
    ensures Sends(Deciding(session, [65], 0), 0, DATA, S06(session))
  {
    hide Iv, Packet, NextIv, AckPacket, OpenMessage, ResponseMessage, ChannelIv, Not, ScanReady, Frag;
    assert [] + [DATA] == [DATA];
    assert [CMC] + [0] == [CMC, 0];
    assert SendMessage(Deciding(session, [65], 0), 0, DATA).chans == S06(session).chans;
  }

  lemma Step07(session: word)
    ensures Transmits(S06(session), S07(session), W07(session))
  {
    hide Iv, Packet, Frag, NextIv, AckPacket, OpenMessage, ResponseMessage, Tx, FlowBit, SetFlow, ScanReady;
    Flows();
    IvNext(true, session, 1, 0);
    AnswerIs(0);
    TxOnly(S06(session), ResponseMessage(0, 0));
    assert [CMC, 0][1..] == [0];
    assert Tx(S06(session), true, true).e.chans == S07(session).chans;
  }

  lemma Step09(session: word)
    ensures Handles(HasAsked(session, [65], false), W07(session), 0, C09(session))
  {
    hide Iv, Packet, NextIv, AckPacket, OpenMessage, ResponseMessage, HandleRx, ChannelIv, Not, SetFlow, ScanReady, Frag;
    Flows();
    PacketSize(CMC, Iv(true, session, 1, 0), ResponseMessage(0, 0), 0x80);
    IvNext(true, session, 1, 0);
    assert [] + [Ready] == [Ready];
    AnswerIs(0);
    RxAnswer(HasAsked(session, [65], false), Iv(true, session, 1, 0), 0, ResponseMessage(0, 0), 0x80);
    assert HandleRx(HasAsked(session, [65], false), W07(session), 0).e.chans == C09(session).chans;
  }

  lemma Step10(session: word)
    ensures Creates(C09(session), [66], false, C10(session))
  {
    hide Iv, Packet, NextIv, AckPacket, OpenMessage, ResponseMessage, ChannelIv, Not, ScanReady, Frag;
    assert LowestFree(C09(session).freeIds, 0) == Some(1);
  }

  lemma Step11(session: word)
    ensures Opens(C10(session), C11(session))
  {
    hide Iv, Packet, NextIv, AckPacket, OpenMessage, ResponseMessage, ChannelIv, Not, ScanReady, Frag;
    assert [] + [OpenMessage(1, [66])] == [OpenMessage(1, [66])];
    assert [] + [CMC] == [CMC];
    IvStart(session, 3);
    Counts();
    assert OpenPending(C10(session)).chans == C11(session).chans;
  }

  lemma Step12(session: word)
    ensures Transmits(C11(session), C12(session), W12(session))
  {
    hide Iv, Packet, Frag, NextIv, AckPacket, OpenMessage, ResponseMessage, Tx, FlowBit, SetFlow, ScanReady;
    Flows();
    IvNext(false, session, 1, 1);
    OpenIs(1, [66]);
    TxOnly(C11(session), OpenMessage(1, [66]));
    assert [CMC][1..] == [];
    assert Tx(C11(session), true, true).e.chans == C12(session).chans;
  }

  lemma Step13(session: word)
    ensures Handles(C12(session), W07(session), 0, C13(session))
  {
    hide Iv, Packet, NextIv, AckPacket, OpenMessage, ResponseMessage, HandleRx, ChannelIv, Not, SetFlow, ScanReady, Frag;
    Flows();
    PacketSize(CMC, Iv(true, session, 1, 0), ResponseMessage(0, 0), 0x80);
    RxCopy(C12(session), CMC, Iv(true, session, 1, 0), ResponseMessage(0, 0), 0x80, 0);
    assert HandleRx(C12(session), W07(session), 0).e.chans == C13(session).chans;
  }

  lemma Step14(session: word)
    ensures Handles(S07(session), W12(session), 0, S14(session))
  {
    hide Iv, Packet, NextIv, AckPacket, OpenMessage, ResponseMessage, HandleRx, ChannelIv, Not, SetFlow, ScanReady, Frag;
    Flows();
    PacketSize(CMC, Iv(false, session, 1, 1), OpenMessage(1, [66]), 0x00);
    IvNext(false, session, 1, 1);
    assert [] + [ResponseMessage(1, 0)] == [ResponseMessage(1, 0)];
    assert [0] + [CMC] == [0, CMC];
    IvStart(session, 3);
    Counts();
    RxOpen(S07(session), Iv(false, session, 1, 1), 1, [66], 0x00, 0);
    assert HandleRx(S07(session), W12(session), 0).e.chans == S14(session).chans;
  }

  lemma Step15(session: word)
    ensures Transmits(S14(session), S15(session), W15(session))
  {
    hide Iv, Packet, Frag, NextIv, AckPacket, OpenMessage, ResponseMessage, Tx, FlowBit, SetFlow, ScanReady;
    Flows();
    IvNext(true, session, 2, 0);
    TxOnly(S14(session), DATA);
    assert [0, CMC][1..] == [CMC];
    assert Tx(S14(session), true, true).e.chans == S15(session).chans;
  }

  lemma Step16(session: word)
    ensures Handles(C13(session), W15(session), 0, C16(session))
  {
    hide Iv, Packet, NextIv, AckPacket, OpenMessage, ResponseMessage, HandleRx, ChannelIv, Not, SetFlow, ScanReady, Frag;
    Flows();
    PacketSize(0, Iv(true, session, 2, 0), DATA, 0x40);
    IvNext(true, session, 2, 0);
    assert [Ready] + [Message(DATA)] == [Ready, Message(DATA)];
    RxData(C13(session), 0, Iv(true, session, 2, 0), DATA, 0x40, 0);
    assert HandleRx(C13(session), W15(session), 0).e.chans == C16(session).chans;
  }

  lemma Step17(session: word)
    ensures Creates(C16(session), [67], true, C17(session))
  {
    hide Iv, Packet, NextIv, AckPacket, OpenMessage, ResponseMessage, ChannelIv, Not, ScanReady, Frag;
    assert LowestFree(C16(session).freeIds, 0) == Some(2);
  }

  lemma Step18(session: word)
    ensures Opens(C17(session), C18(session))
  {
    hide Iv, Packet, NextIv, AckPacket, OpenMessage, ResponseMessage, ChannelIv, Not, ScanReady, Frag;
    assert [] + [OpenMessage(2, [67])] == [OpenMessage(2, [67])];
    assert [] + [CMC] == [CMC];
    IvStart(session, 4);
    Counts();
    assert OpenPending(C17(session)).chans == C18(session).chans;
  }

  lemma Step19(session: word)
    ensures Transmits(C18(session), C19(session), W19(session))
  {
    hide Iv, Packet, Frag, NextIv, AckPacket, OpenMessage, ResponseMessage, Tx, FlowBit, SetFlow, ScanReady;
    Flows();
    IvNext(false, session, 1, 2);
    OpenIs(2, [67]);
    TxOnly(C18(session), OpenMessage(2, [67]));
    assert [CMC][1..] == [];
    assert Tx(C18(session), true, true).e.chans == C19(session).chans;
  }

  lemma Step20(session: word)
    ensures Handles(S15(session), W19(session), 0, S20(session))
  {
    hide Iv, Packet, NextIv, AckPacket, OpenMessage, ResponseMessage, HandleRx, ChannelIv, Not, SetFlow, ScanReady, Frag;
    Flows();
    PacketSize(CMC, Iv(false, session, 1, 2), OpenMessage(2, [67]), 0xC0);
    IvNext(false, session, 1, 2);
    assert [ResponseMessage(1, 0)] + [ResponseMessage(2, 0)] == [ResponseMessage(1, 0), ResponseMessage(2, 0)];
    IvStart(session, 4);
    Counts();
    RxOpen(S15(session), Iv(false, session, 1, 2), 2, [67], 0xC0, 0);
    assert HandleRx(S15(session), W19(session), 0).e.chans == S20(session).chans;
  }

  lemma Step21(session: word)
    ensures Sends(S20(session), 2, DATA, S21(session))
  {
    hide Iv, Packet, NextIv, AckPacket, OpenMessage, ResponseMessage, ChannelIv, Not, ScanReady, Frag;
    assert [] + [DATA] == [DATA];
    assert [CMC] + [2] == [CMC, 2];
    assert SendMessage(S20(session), 2, DATA).chans == S21(session).chans;
  }

  lemma Step22(session: word)
    ensures Transmits(S21(session), S22(session), W22(session))
  {
    hide Iv, Packet, Frag, NextIv, AckPacket, OpenMessage, ResponseMessage, Tx, FlowBit, SetFlow, ScanReady, Ch;
    Flows();
    AnswerIs(1);
    AnswerIs(2);
    Cut22(session);
    TxFirst(S21(session), ResponseMessage(1, 0), ResponseMessage(2, 0));
    PutControl(Ch(true, session, 1, Active, false, [], [], [ResponseMessage(1, 0), ResponseMessage(2, 0)], 1, 3, []),
               Ch(true, session, 2, Established, false, [65], [], [], 1, 0, []),
               Ch(true, session, 3, Established, false, [66], [], [], 0, 0, []),
               Ch(true, session, 4, Active, false, [67], [], [DATA], 0, 0, []),
               Ch(true, session, 1, Active, false, [], [Frag(CMC, Iv(true, session, 1, 2), ResponseMessage(2, 0))], [], 3, 3, []));
    assert [CMC, 2][1..] == [2];
    assert [2] + [CMC] == [2, CMC];
  }

  /** The control channel before and after its two answers are cut. */
  lemma Cut22(session: word)
    ensures var ch := Ch(true, session, 1, Active, false, [], [], [ResponseMessage(1, 0), ResponseMessage(2, 0)], 1, 3, []);
      && ch.txIV == Iv(true, session, 1, 1) && ch.txq == [] && ch.mtxq == [ResponseMessage(1, 0), ResponseMessage(2, 0)]
      && ch.(txq := [Frag(CMC, NextIv(ch.txIV), ResponseMessage(2, 0))], mtxq := [], txIV := NextIv(NextIv(ch.txIV)))
         == Ch(true, session, 1, Active, false, [], [Frag(CMC, Iv(true, session, 1, 2), ResponseMessage(2, 0))], [], 3, 3, [])
  {
    hide Iv, Frag, NextIv, ResponseMessage;
    IvNext(true, session, 1, 1);
    IvNext(true, session, 1, 2);
  }

  lemma PutControl(a: Chan, b: Chan, c: Chan, d: Chan, a1: Chan)
    ensures map[CMC := a, 0 := b, 1 := c, 2 := d][CMC] == a
    ensures map[CMC := a, 0 := b, 1 := c, 2 := d][CMC := a1] == map[CMC := a1, 0 := b, 1 := c, 2 := d]
  {
  }

  lemma Step23(session: word)
    ensures Handles(C19(session), W22(session), 0, C23(session))
  {
    hide Iv, Packet, NextIv, AckPacket, OpenMessage, ResponseMessage, HandleRx, ChannelIv, Not, SetFlow, ScanReady, Frag;
    Flows();
    PacketSize(CMC, Iv(true, session, 1, 1), ResponseMessage(1, 0), 0x80);
    IvNext(true, session, 1, 1);
    assert [] + [Ready] == [Ready];
    AnswerIs(1);
    RxAnswer(C19(session), Iv(true, session, 1, 1), 1, ResponseMessage(1, 0), 0x80);
    assert HandleRx(C19(session), W22(session), 0).e.chans == C23(session).chans;
  }

  lemma Step24(session: word)
    ensures Transmits(C23(session), C23(session), AckPacket(C23(session)))
  {
    hide Iv, Packet, Frag, NextIv, AckPacket, OpenMessage, ResponseMessage, Tx, FlowBit, SetFlow, ScanReady;
    Flows();
    TxAck(C23(session));
  }

  lemma Step25(session: word)
    ensures Handles(S22(session), AckPacket(C23(session)), 0, S25(session))
  {
    hide Iv, Packet, NextIv, AckPacket, OpenMessage, ResponseMessage, HandleRx, ChannelIv, Not, SetFlow, ScanReady, Frag;
    Flows();
    RxAck(S22(session), C23(session), 0);
    AckBytes(C23(session));
    assert HandleRx(S22(session), AckPacket(C23(session)), 0).e.chans == S25(session).chans;
  }

  lemma Step26(session: word)
    ensures Transmits(S25(session), S26(session), W26(session))
  {
    hide Iv, Packet, Frag, NextIv, AckPacket, OpenMessage, ResponseMessage, Tx, FlowBit, SetFlow, ScanReady;
    Flows();
    IvNext(true, session, 4, 0);
    TxOnly(S25(session), DATA);
    assert [2, CMC][1..] == [CMC];
    assert Tx(S25(session), true, true).e.chans == S26(session).chans;
  }

  lemma Step27(session: word)
    ensures Handles(C23(session), W26(session), 0, C27(session))
  {
    hide Iv, Packet, NextIv, AckPacket, OpenMessage, ResponseMessage, HandleRx, ChannelIv, Not, SetFlow, ScanReady, Frag;
    Flows();
    PacketSize(2, Iv(true, session, 4, 0), DATA, 0x00);
    IvNext(true, session, 4, 0);
    assert [] + [Message(DATA)] == [Message(DATA)];
    RxData(C23(session), 2, Iv(true, session, 4, 0), DATA, 0x00, 0);
    assert HandleRx(C23(session), W26(session), 0).e.chans == C27(session).chans;
  }

  lemma Step28(session: word)
    ensures Transmits(C27(session), C27(session), AckPacket(C27(session)))
  {
    hide Iv, Packet, Frag, NextIv, AckPacket, OpenMessage, ResponseMessage, Tx, FlowBit, SetFlow, ScanReady;
    Flows();
    TxAck(C27(session));
  }

  lemma Step29(session: word)
    ensures Handles(S26(session), AckPacket(C27(session)), 0, S29(session))
  {
    hide Iv, Packet, NextIv, AckPacket, OpenMessage, ResponseMessage, HandleRx, ChannelIv, Not, SetFlow, ScanReady, Frag;
    Flows();
    RxAck(S26(session), C27(session), 0);
    AckBytes(C27(session));
    assert HandleRx(S26(session), AckPacket(C27(session)), 0).e.chans == S29(session).chans;
  }

  lemma Step30(session: word)
    ensures Transmits(S29(session), S30(session), W30(session))
  {
    hide Iv, Packet, Frag, NextIv, AckPacket, OpenMessage, ResponseMessage, Tx, FlowBit, SetFlow, ScanReady;
    Flows();
    TxLast(S29(session), Iv(true, session, 1, 2), ResponseMessage(2, 0));
    assert [CMC][1..] == [];
    assert Tx(S29(session), true, true).e.chans == S30(session).chans;
  }

  lemma Step31(session: word)
    ensures Handles(C27(session), W30(session), 0, C31(session))
  {
    hide Iv, Packet, NextIv, AckPacket, OpenMessage, ResponseMessage, HandleRx, ChannelIv, Not, SetFlow, ScanReady, Frag;
    Flows();
    PacketSize(CMC, Iv(true, session, 1, 2), ResponseMessage(2, 0), 0x80);
    IvNext(true, session, 1, 2);
    assert [] + [Ready] == [Ready];
    AnswerIs(2);
    RxAnswer(C27(session), Iv(true, session, 1, 2), 2, ResponseMessage(2, 0), 0x80);
    assert HandleRx(C27(session), W30(session), 0).e.chans == C31(session).chans;
  }

  // ---------------------------------------------------------------------
  // The run
  // ---------------------------------------------------------------------

  function Part1(): seq<Action> { [ServerSend(0, DATA), ServerTx(true, true), RepeatFromServer(0), ClientRx, ClientCreate([66], false)] }

  lemma Plays1(session: word, y: System)
    requires Shows(y, HasAsked(session, [65], false), Deciding(session, [65], 0), [], [])
    ensures Shows(Play(y, Part1()), C10(session), S07(session), [], [W07(session)])
  {
    hide Shows, Step, Play, Transmits, Handles, Creates, Opens, Sends, Packet, Iv, AckPacket, OpenMessage, ResponseMessage, HasAsked, Deciding, C09, C10, S06, S07, W07;
    Step06(session);
    DoServerSend(y, HasAsked(session, [65], false), Deciding(session, [65], 0), [], [], 0, DATA, S06(session));
    var y1 := Step(y, ServerSend(0, DATA));
    Step07(session);
    assert [] + [W07(session)] == [W07(session)];
    DoServerTx(y1, HasAsked(session, [65], false), S06(session), [], [], S07(session), W07(session));
    var y2 := Step(y1, ServerTx(true, true));
    DoRepeat(y2, HasAsked(session, [65], false), S07(session), [], W07(session));
    var y3 := Step(y2, RepeatFromServer(0));
    Step09(session);
    assert [W07(session)] + [W07(session)] == [W07(session), W07(session)];
    DoClientRx(y3, HasAsked(session, [65], false), S07(session), [], W07(session), [W07(session)], C09(session));
    var y4 := Step(y3, ClientRx);
    Step10(session);
    DoCreate(y4, C09(session), S07(session), [], [W07(session)], [66], false, C10(session));
    PlayFive(y, ServerSend(0, DATA), ServerTx(true, true), RepeatFromServer(0), ClientRx, ClientCreate([66], false));
  }

  function Part2(): seq<Action> { [ClientOpen, ClientTx(true, true), ClientRx, ServerRx(0), ServerTx(true, true)] }

  lemma Plays2(session: word, y: System)
    requires Shows(y, C10(session), S07(session), [], [W07(session)])
    ensures Shows(Play(y, Part2()), C13(session), S15(session), [], [W15(session)])
  {
    hide Shows, Step, Play, Transmits, Handles, Creates, Opens, Sends, Packet, Iv, AckPacket, OpenMessage, ResponseMessage, HasAsked, Deciding, C10, C11, C12, C13, S07, S14, S15, W07, W12, W15;
    Step11(session);
    DoOpen(y, C10(session), S07(session), [], [W07(session)], C11(session));
    var y1 := Step(y, ClientOpen);
    Step12(session);
    assert [] + [W12(session)] == [W12(session)];
    DoClientTx(y1, C11(session), S07(session), [], [W07(session)], C12(session), W12(session));
    var y2 := Step(y1, ClientTx(true, true));
    Step13(session);
    assert [W07(session)] + [] == [W07(session)];
    DoClientRx(y2, C12(session), S07(session), [W12(session)], W07(session), [], C13(session));
    var y3 := Step(y2, ClientRx);
    Step14(session);
    assert [W12(session)] + [] == [W12(session)];
    DoServerRx(y3, C13(session), S07(session), W12(session), [], [], 0, S14(session));
    var y4 := Step(y3, ServerRx(0));
    Step15(session);
    assert [] + [W15(session)] == [W15(session)];
    DoServerTx(y4, C13(session), S14(session), [], [], S15(session), W15(session));
    PlayFive(y, ClientOpen, ClientTx(true, true), ClientRx, ServerRx(0), ServerTx(true, true));
  }

  function Part3(): seq<Action> { [ClientRx, ClientCreate([67], true), ClientOpen, ClientTx(true, true), ServerRx(0)] }

  lemma Plays3(session: word, y: System)
    requires Shows(y, C13(session), S15(session), [], [W15(session)])
    ensures Shows(Play(y, Part3()), C19(session), S20(session), [], [])
  {
    hide Shows, Step, Play, Transmits, Handles, Creates, Opens, Sends, Packet, Iv, AckPacket, OpenMessage, ResponseMessage, HasAsked, Deciding, C13, C16, C17, C18, C19, S15, S20, W15, W19;
    Step16(session);
    assert [W15(session)] + [] == [W15(session)];
    DoClientRx(y, C13(session), S15(session), [], W15(session), [], C16(session));
    var y1 := Step(y, ClientRx);
    Step17(session);
    DoCreate(y1, C16(session), S15(session), [], [], [67], true, C17(session));
    var y2 := Step(y1, ClientCreate([67], true));
    Step18(session);
    DoOpen(y2, C17(session), S15(session), [], [], C18(session));
    var y3 := Step(y2, ClientOpen);
    Step19(session);
    assert [] + [W19(session)] == [W19(session)];
    DoClientTx(y3, C18(session), S15(session), [], [], C19(session), W19(session));
    var y4 := Step(y3, ClientTx(true, true));
    Step20(session);
    assert [W19(session)] + [] == [W19(session)];
    DoServerRx(y4, C19(session), S15(session), W19(session), [], [], 0, S20(session));
    PlayFive(y, ClientRx, ClientCreate([67], true), ClientOpen, ClientTx(true, true), ServerRx(0));
  }

  function Part4(): seq<Action> { [ServerSend(2, DATA), ServerTx(true, true), ClientRx, ClientTx(true, true), ServerRx(0)] }

  lemma Plays4(session: word, y: System)
    requires Shows(y, C19(session), S20(session), [], [])
    ensures Shows(Play(y, Part4()), C23(session), S25(session), [], [])
  {
    hide Shows, Step, Play, Transmits, Handles, Creates, Opens, Sends, Packet, Iv, AckPacket, OpenMessage, ResponseMessage, HasAsked, Deciding, C19, C23, S20, S21, S22, S25, W22;
    Step21(session);
    DoServerSend(y, C19(session), S20(session), [], [], 2, DATA, S21(session));
    var y1 := Step(y, ServerSend(2, DATA));
    Step22(session);
    assert [] + [W22(session)] == [W22(session)];
    DoServerTx(y1, C19(session), S21(session), [], [], S22(session), W22(session));
    var y2 := Step(y1, ServerTx(true, true));
    Step23(session);
    assert [W22(session)] + [] == [W22(session)];
    DoClientRx(y2, C19(session), S22(session), [], W22(session), [], C23(session));
    var y3 := Step(y2, ClientRx);
    Step24(session);
    assert [] + [AckPacket(C23(session))] == [AckPacket(C23(session))];
    DoClientTx(y3, C23(session), S22(session), [], [], C23(session), AckPacket(C23(session)));
    var y4 := Step(y3, ClientTx(true, true));
    Step25(session);
    assert [AckPacket(C23(session))] + [] == [AckPacket(C23(session))];
    DoServerRx(y4, C23(session), S22(session), AckPacket(C23(session)), [], [], 0, S25(session));
    PlayFive(y, ServerSend(2, DATA), ServerTx(true, true), ClientRx, ClientTx(true, true), ServerRx(0));
  }

  function Part5(): seq<Action> { [ServerTx(true, true), ClientRx, ClientTx(true, true), ServerRx(0), ServerTx(true, true)] }

  lemma Plays5(session: word, y: System)
    requires Shows(y, C23(session), S25(session), [], [])
    ensures Shows(Play(y, Part5()), C27(session), S30(session), [], [W30(session)])
  {
    hide Shows, Step, Play, Transmits, Handles, Creates, Opens, Sends, Packet, Iv, AckPacket, OpenMessage, ResponseMessage, HasAsked, Deciding, C23, C27, S25, S26, S29, S30, W26, W30;
    Step26(session);
    assert [] + [W26(session)] == [W26(session)];
    DoServerTx(y, C23(session), S25(session), [], [], S26(session), W26(session));
    var y1 := Step(y, ServerTx(true, true));
    Step27(session);
    assert [W26(session)] + [] == [W26(session)];
    DoClientRx(y1, C23(session), S26(session), [], W26(session), [], C27(session));
    var y2 := Step(y1, ClientRx);
    Step28(session);
    assert [] + [AckPacket(C27(session))] == [AckPacket(C27(session))];
    DoClientTx(y2, C27(session), S26(session), [], [], C27(session), AckPacket(C27(session)));
    var y3 := Step(y2, ClientTx(true, true));
    Step29(session);
    assert [AckPacket(C27(session))] + [] == [AckPacket(C27(session))];
    DoServerRx(y3, C27(session), S26(session), AckPacket(C27(session)), [], [], 0, S29(session));
    var y4 := Step(y3, ServerRx(0));
    Step30(session);
    assert [] + [W30(session)] == [W30(session)];
    DoServerTx(y4, C27(session), S29(session), [], [], S30(session), W30(session));
    PlayFive(y, ServerTx(true, true), ClientRx, ClientTx(true, true), ServerRx(0), ServerTx(true, true));
  }

  function Script(): seq<Action> {
    OpeningActions([65], false) + [ServerRx(0)] + Part1() + Part2() + Part3() + Part4() + Part5()
  }

  lemma Plays(session: word)
    ensures Shows(Play(Start(session), Script()), C27(session), S30(session), [], [W30(session)])
  {
    hide Shows, Play, Start, OpeningActions, Part1, Part2, Part3, Part4, Part5, HasAsked, Deciding, C13, S07, S15, C16, C19, S22, C23, C27, S30, Packet, Iv,
      AckPacket, ResponseMessage, OpenMessage, W07, W12, W19, W22, W30, S14, C09, C10, C18, C17, S20;
    var y := Start(session);
    var a := OpeningActions([65], false) + [ServerRx(0)];
    Deciding5(session, [65], false, 0);
    PlayJoin(y, a, Part1());
    Plays1(session, Play(y, a));
    PlayJoin(y, a + Part1(), Part2());
    Plays2(session, Play(y, a + Part1()));
    PlayJoin(y, a + Part1() + Part2(), Part3());
    Plays3(session, Play(y, a + Part1() + Part2()));
    PlayJoin(y, a + Part1() + Part2() + Part3(), Part4());
    Plays4(session, Play(y, a + Part1() + Part2() + Part3()));
    PlayJoin(y, a + Part1() + Part2() + Part3() + Part4(), Part5());
    Plays5(session, Play(y, a + Part1() + Part2() + Part3() + Part4()));
  }

  lemma AnswerNext2(session: word)
    ensures CMC in C27(session).chans && C27(session).connected && !C27(session).fdcan
    ensures 2 in C27(session).chans && C27(session).chans[2].rxq == [Message(DATA)] && C27(session).chans[2].reconnect
    ensures C31(session).chans.Keys == C27(session).chans.Keys && C31(session).chans[2].rxq == [Ready]
    ensures var p := W30(session);
      |p| >= 1 && Takes(C27(session), p) && ChannelOf(p[0]) == CMC && Completed(C27(session), p) == Some(ResponseMessage(2, 0)) && Unpad(false, p) == Some(p)
  {
    hide Iv, Packet, ResponseMessage, Receive, OpenMessage, ChannelOf;
    Flows();
    PacketBits(CMC, Iv(true, session, 1, 2), ResponseMessage(2, 0), 0x80);
    PacketOpens(CMC, Iv(true, session, 1, 2), ResponseMessage(2, 0), 0x80);
  }

  lemma Dropped()
    ensures Messages([Message(DATA)]) != [] && Messages([Ready]) == []
  {
    assert [Message(DATA)][1..] == [] && [Ready][1..] == [];
  }

  /** The run reaches a state in which the acceptance of a channel finds a message
      queued for its reader; handling it, the client throws the message away. */
  lemma OvertakenRun(session: word)
    ensures var y := Run(Start(session), Script());
      var z := Run(Start(session), Script() + [ClientRx]);
      && Overtaken(y) && !y.broken && !z.broken
      && 2 in y.c.e.chans && y.c.e.chans[2].rxq == [Message(DATA)]
      && 2 in z.c.e.chans && z.c.e.chans[2].rxq == [Ready]
  {
    hide W30, Start, Script, Play, Run, Step, C27, C31, S30, Packet, Iv, ResponseMessage, Handles, Takes, Completed, ChannelOf, Unpad, Messages, Fit;
    Plays(session);
    var y := Play(Start(session), Script());
    var p := W30(session);
    AnswerNext2(session);
    AnswerIs(2);
    Dropped();
    assert Wires(y.sc)[0] == p;
    Step31(session);
    assert [p] + [] == [p];
    DoClientRx(y, C27(session), S30(session), [], p, [], C31(session));
    PlayJoin(Start(session), Script(), [ClientRx]);
    PlayOne(y, ClientRx);
    PlayIsRun(Start(session), Script());
    PlayIsRun(Start(session), Script() + [ClientRx]);
  }
}
