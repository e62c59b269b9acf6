/** The channel-open exchange: opens and answers travel in order on the control
    channel, so client and server number the same opens alike. */
module VllpControl {
  import opened Common
  import opened Crc32
  import opened VllpFrames
  import opened VllpEndpoint
  import opened VllpSession
  import opened VllpInvariant

  lemma OpenBits(id: nat, name: bytes)
    requires id < 14
    ensures OpenOk(OpenMessage(id, name)) && ChannelOf(OpenMessage(id, name)[0]) == id
    ensures OpenMessage(id, name)[1..] == name
  {
    var b := id as byte;
    assert b < 14 && b as nat == id;
    assert b & 0x0F == b && b >> 4 == 0;
  }

  lemma AnswerBits(id: nat, verdict: word)
    requires id < 15
    ensures AnswerOk(ResponseMessage(id, verdict), id)
    ensures Accepted(ResponseMessage(id, verdict)) <==> SaysAccepted(verdict)
  {
    hide LowByte, DropByte;
    var b := id as byte;
    assert b < 15 && b as nat == id;
    assert (b | 0x20) & 0x0F == b && (b | 0x20) >> 4 == 2;
  }

  lemma SaysAcceptedZero()
    ensures SaysAccepted(0)
  {
  }

  lemma OpenIdSnoc(opens: seq<bytes>, m: bytes, j: nat)
    requires |m| >= 1
    ensures OpenId(opens + [m], j) == if j == |opens| then ChannelOf(m[0]) else OpenId(opens, j)
  {
    hide ChannelOf;
  }

  /** The client takes an unused identifier. */
  lemma ControlCreate(opens: seq<bytes>, answers: seq<bytes>, handled: nat,
                      phases: map<nat, Phase>, serial: map<nat, nat>, ids: set<nat>, sserial: map<nat, nat>, id: nat)
    requires Control(opens, answers, handled, phases, serial, ids, sserial)
    requires id !in phases && id < 14
    ensures Control(opens, answers, handled, phases[id := Waiting], serial, ids, sserial)
  {
    hide OpenOk, AnswerOk, Accepted, OpenId;
  }

  /** The client announces a waiting channel. */
  lemma ControlOpen(opens: seq<bytes>, answers: seq<bytes>, handled: nat,
                    phases: map<nat, Phase>, serial: map<nat, nat>, ids: set<nat>, sserial: map<nat, nat>, id: nat, m: bytes)
    requires Control(opens, answers, handled, phases, serial, ids, sserial)
    requires id in phases && phases[id] == Waiting && id < 14
    requires OpenOk(m) && ChannelOf(m[0]) == id
    ensures Control(opens + [m], answers, handled, phases[id := Asked], serial[id := |opens| + 2], ids, sserial)
  {
    hide OpenOk, AnswerOk, Accepted, OpenId, ChannelOf, ClientControl, ServerControl;
    OpenOkSize(m);
    forall j: nat
      ensures OpenId(opens + [m], j) == if j == |opens| then id else OpenId(opens, j)
    {
      OpenIdSnoc(opens, m, j);
    }
    OpenClient(opens, handled, phases, serial, id, m);
    OpenServer(opens, answers, phases, serial, ids, sserial, id, m);
  }

  lemma OpenClient(opens: seq<bytes>, handled: nat, phases: map<nat, Phase>, serial: map<nat, nat>, id: nat, m: bytes)
    requires ClientControl(opens, handled, phases, serial)
    requires id in phases && phases[id] == Waiting && id < 14 && handled <= |opens|
    requires forall j: nat :: OpenId(opens + [m], j) == if j == |opens| then id else OpenId(opens, j)
    ensures ClientControl(opens + [m], handled, phases[id := Asked], serial[id := |opens| + 2])
  {
    hide OpenId;
  }

  lemma OpenServer(opens: seq<bytes>, answers: seq<bytes>,
                   phases: map<nat, Phase>, serial: map<nat, nat>, ids: set<nat>, sserial: map<nat, nat>, id: nat, m: bytes)
    requires ServerControl(opens, answers, ids, sserial, phases, serial) && |answers| <= |opens|
    requires id in phases && phases[id] == Waiting && id < 14
    requires forall j: nat :: OpenId(opens + [m], j) == if j == |opens| then id else OpenId(opens, j)
    ensures ServerControl(opens + [m], answers, ids, sserial, phases[id := Asked], serial[id := |opens| + 2])
  {
    hide Accepted, OpenId;
  }

  lemma OpenOkSize(m: bytes)
    requires OpenOk(m)
    ensures |m| >= 1
  {
  }

  /** The server's next open names a channel it does not have. */
  lemma ControlNext(opens: seq<bytes>, answers: seq<bytes>, handled: nat,
                    phases: map<nat, Phase>, serial: map<nat, nat>, ids: set<nat>, sserial: map<nat, nat>)
    requires Control(opens, answers, handled, phases, serial, ids, sserial)
    requires |answers| < |opens|
    ensures var id := OpenId(opens, |answers|);
      id < 14 && id !in ids && id in phases && phases[id] == Asked && Serial(serial, id, |answers|)
  {
    hide AnswerOk, Accepted;
    assert OpenOk(opens[|answers|]);
  }

  lemma ServeRefused(opens: seq<bytes>, answers: seq<bytes>, ids: set<nat>, sserial: map<nat, nat>, phases: map<nat, Phase>, serial: map<nat, nat>, m: bytes)
    requires ServerControl(opens, answers, ids, sserial, phases, serial)
    ensures ServerControl(opens, answers + [m], ids, sserial, phases, serial)
  {
    hide Accepted, OpenId;
  }

  lemma ServeAccepted(opens: seq<bytes>, answers: seq<bytes>, ids: set<nat>, sserial: map<nat, nat>, phases: map<nat, Phase>, serial: map<nat, nat>, m: bytes)
    requires ServerControl(opens, answers, ids, sserial, phases, serial) && Accepted(m)
    requires var id := OpenId(opens, |answers|);
      id < 14 && id !in ids && id in phases && phases[id] == Asked && Serial(serial, id, |answers|)
    ensures var id := OpenId(opens, |answers|);
      ServerControl(opens, answers + [m], ids + {id}, sserial[id := |answers| + 2], phases, serial)
  {
    hide Accepted, OpenId;
  }

  /** The server answers the next open. It may refuse with an answer that reads
      as an acceptance, but not accept with one that reads as a refusal. */
  lemma ControlServe(opens: seq<bytes>, answers: seq<bytes>, handled: nat,
                     phases: map<nat, Phase>, serial: map<nat, nat>, ids: set<nat>, sserial: map<nat, nat>, m: bytes, made: bool)
    requires Control(opens, answers, handled, phases, serial, ids, sserial)
    requires |answers| < |opens| && AnswerOk(m, OpenId(opens, |answers|)) && (made ==> Accepted(m))
    ensures var id := OpenId(opens, |answers|);
      Control(opens, answers + [m], handled, phases, serial,
              if made then ids + {id} else ids,
              if made then sserial[id := |answers| + 2] else sserial)
  {
    hide OpenOk, AnswerOk, Accepted, OpenId, ClientControl, ServerControl;
    ControlNext(opens, answers, handled, phases, serial, ids, sserial);
    if made {
      ServeAccepted(opens, answers, ids, sserial, phases, serial, m);
    } else {
      ServeRefused(opens, answers, ids, sserial, phases, serial, m);
    }
  }

  /** The client's next answer is about a channel it has asked for. */
  lemma ControlPending(opens: seq<bytes>, answers: seq<bytes>, handled: nat,
                       phases: map<nat, Phase>, serial: map<nat, nat>, ids: set<nat>, sserial: map<nat, nat>)
    requires Control(opens, answers, handled, phases, serial, ids, sserial)
    requires handled < |answers|
    ensures AnswerOk(answers[handled], OpenId(opens, handled))
    ensures var id := OpenId(opens, handled);
      && id < 14 && id in phases && phases[id] == Asked && Serial(serial, id, handled)
      && (id in ids ==> Accepted(answers[handled]))
  {
    hide AnswerOk, Accepted;
    assert OpenOk(opens[handled]);
  }

  /** The client handles the next answer. */
  lemma ControlAnswer(opens: seq<bytes>, answers: seq<bytes>, handled: nat,
                      phases: map<nat, Phase>, serial: map<nat, nat>, ids: set<nat>, sserial: map<nat, nat>)
    requires Control(opens, answers, handled, phases, serial, ids, sserial)
    requires handled < |answers|
    ensures var id := OpenId(opens, handled);
      Control(opens, answers, handled + 1,
              if Accepted(answers[handled]) then phases[id := Open] else phases - {id}, serial, ids, sserial)
  {
    ControlPending(opens, answers, handled, phases, serial, ids, sserial);
    hide OpenOk, AnswerOk, Accepted, OpenId, ClientControl, ServerControl;
    AnswerClient(opens, handled, phases, serial, Accepted(answers[handled]));
    AnswerServer(opens, answers, handled, phases, serial, ids, sserial, Accepted(answers[handled]));
  }

  /** Phases of the client's channels once an answer is handled. */
  function AnsweredPhases(phases: map<nat, Phase>, id: nat, yes: bool): map<nat, Phase> {
    if yes then phases[id := Open] else phases - {id}
  }

  lemma AnswerClient(opens: seq<bytes>, handled: nat, phases: map<nat, Phase>, serial: map<nat, nat>, yes: bool)
    requires ClientControl(opens, handled, phases, serial)
    requires var id := OpenId(opens, handled); id < 14 && Serial(serial, id, handled) && handled < |opens|
    ensures ClientControl(opens, handled + 1, AnsweredPhases(phases, OpenId(opens, handled), yes), serial)
  {
    hide OpenId;
  }

  lemma AnswerServer(opens: seq<bytes>, answers: seq<bytes>, handled: nat, phases: map<nat, Phase>, serial: map<nat, nat>,
                     ids: set<nat>, sserial: map<nat, nat>, yes: bool)
    requires ServerControl(opens, answers, ids, sserial, phases, serial)
    requires var id := OpenId(opens, handled); id in ids ==> yes
    ensures ServerControl(opens, answers, ids, sserial, AnsweredPhases(phases, OpenId(opens, handled), yes), serial)
  {
    hide Accepted, OpenId;
  }
}
