/**
 The HDCP 2.2 message sequencer (msm/sde_hdcp_2x.c), following sections 2.2 (AKE), 2.3 (locality
 check), 2.4 (SKE) and 2.5 (repeaters) of the HDCP 2.2 specification. Work items and wakeup commands
 are atomic steps that may run in any order; TrustZone and the sink answer arbitrarily.
 */
module Hdcp2x {

  const INVALID := 0
  const AKE_INIT := 2
  const AKE_SEND_CERT := 3
  const AKE_NO_STORED_KM := 4
  const AKE_STORED_KM := 5
  const AKE_SEND_H_PRIME := 7
  const AKE_SEND_PAIRING_INFO := 8
  const LC_INIT := 9
  const LC_SEND_L_PRIME := 10
  const SKE_SEND_EKS := 11
  const REP_SEND_RECV_ID_LIST := 12
  const REP_SEND_ACK := 15
  const REP_STREAM_MANAGE := 16
  const REP_STREAM_READY := 17
  const SKE_SEND_TYPE_ID := 18
  const EINVAL := 22

  /** Commands to the transport layer; the two status commands carry no message. */
  datatype Cmd = NoCmd | Send | Recv | LinkPoll | Status

  datatype Flags = Flags(
    noStoredKm: bool, repeater: bool, updateStream: bool, resendLc: bool, resendStream: bool,
    authenticated: bool, off: bool,
    displayPort: bool)    // device type is DP or DP MST

  /** `app_data.response`: its first byte, which names the message, and its length. */
  datatype Response = Response(msg: int, len: nat)

  datatype Ctrl = Ctrl(
    lastMsg: int,
    trace: seq<int>,      // messages announced to the client since last_msg was last reset
    resp: Response,
    flags: Flags)

  /** One TrustZone answer. */
  datatype Tz = Tz(ok: bool, resp: Response, repeater: bool)

  /** `sde_hdcp_2x_get_next_message`, without the flag it clears. */
  function NextMessage(c: Ctrl, cmd: Cmd): int {
    var repeaterNext := if cmd == Send then REP_STREAM_MANAGE else REP_SEND_RECV_ID_LIST;
    if c.lastMsg == INVALID then AKE_INIT
    else if c.lastMsg == AKE_INIT then AKE_SEND_CERT
    else if c.lastMsg == AKE_SEND_CERT then if c.flags.noStoredKm then AKE_NO_STORED_KM else AKE_STORED_KM
    else if c.lastMsg == AKE_STORED_KM || c.lastMsg == AKE_NO_STORED_KM then AKE_SEND_H_PRIME
    else if c.lastMsg == AKE_SEND_H_PRIME then if c.flags.noStoredKm then AKE_SEND_PAIRING_INFO else LC_INIT
    else if c.lastMsg == AKE_SEND_PAIRING_INFO then LC_INIT
    else if c.lastMsg == LC_INIT then LC_SEND_L_PRIME
    else if c.lastMsg == LC_SEND_L_PRIME then if c.flags.resendLc then LC_INIT else SKE_SEND_EKS
    else if c.lastMsg == SKE_SEND_EKS || c.lastMsg == SKE_SEND_TYPE_ID then
      if !c.flags.repeater then SKE_SEND_TYPE_ID else repeaterNext
    else if c.lastMsg == REP_STREAM_READY || c.lastMsg == REP_SEND_ACK then
      if !c.flags.repeater then INVALID else repeaterNext
    else if c.lastMsg == REP_SEND_RECV_ID_LIST then REP_SEND_ACK
    else if c.lastMsg == REP_STREAM_MANAGE then REP_STREAM_READY
    else -EINVAL
  }

  /** `sde_hdcp_2x_wakeup_client`. */
  function WakeupClient(c: Ctrl, cmd: Cmd): Ctrl {
    if cmd == NoCmd || cmd == Status then c
    else
      var c1 := if c.lastMsg == REP_STREAM_MANAGE then c.(flags := c.flags.(resendStream := false)) else c;
      var next := NextMessage(c, cmd);
      if next <= INVALID then c1.(lastMsg := INVALID, trace := [])
      else c1.(lastMsg := next, trace := c.trace + [next])
  }

  function Answered(c: Ctrl, tz: Tz): Ctrl { c.(resp := tz.resp) }

  function SetHwKey(c: Ctrl, tz: Tz): Ctrl {
    if c.flags.authenticated then c
    else if !tz.ok then Answered(c, tz)
    else Answered(c, tz).(flags := c.flags.(authenticated := true))
  }

  function TypeIdMessage(c: Ctrl): Ctrl { c.(resp := Response(SKE_SEND_TYPE_ID, 1)) }

  function StartAuth(c: Ctrl, tz: Tz): Ctrl {
    var c1 := Answered(c, tz);
    if tz.ok then WakeupClient(c1, Send) else c1
  }

  function SendType(c: Ctrl): Ctrl {
    if c.flags.off || c.flags.repeater then c else WakeupClient(TypeIdMessage(c), Send)
  }

  function Stream(c: Ctrl, tz: Tz): Ctrl {
    if c.flags.off || !c.flags.repeater || (!c.flags.authenticated && c.resp.msg != REP_SEND_ACK) then c
    else
      var c1 := Answered(c, tz);
      if tz.ok then WakeupClient(c1.(lastMsg := REP_SEND_ACK), Send) else c1
  }

  function MsgSent(c: Ctrl, tz: Tz): Ctrl {
    if c.resp.msg == SKE_SEND_TYPE_ID then WakeupClient(SetHwKey(c, tz), LinkPoll)
    else if c.resp.msg == SKE_SEND_EKS then
      if c.flags.repeater && !c.flags.off then WakeupClient(c, LinkPoll) else WakeupClient(TypeIdMessage(c), Send)
    else if c.resp.msg == REP_SEND_ACK then
      if c.flags.updateStream then c.(flags := c.flags.(updateStream := false)) else WakeupClient(c, LinkPoll)
    else WakeupClient(c, Recv)
  }

  function Timeout(c: Ctrl, tz: Tz): Ctrl {
    if c.flags.off then c
    else
      var c1 := Answered(c, tz);
      if tz.ok && c1.resp.msg == LC_INIT then WakeupClient(c1, Send) else c1
  }

  /** What the sink's message `msg0` and TrustZone's reply `out` set before the next message goes out. */
  function Noted(c: Ctrl, msg0: int, out: int, tz: Tz): Ctrl {
    c.(flags := c.flags.(
         resendLc := msg0 == LC_SEND_L_PRIME && out == LC_INIT,
         noStoredKm := out == AKE_NO_STORED_KM,
         repeater := if out == SKE_SEND_EKS then tz.repeater else c.flags.repeater,
         updateStream := c.flags.updateStream || out == SKE_SEND_EKS))
  }

  /** `length` and `sink0` describe the message from the sink; `tz2` answers the follow-up request. */
  function MsgRecvd(c: Ctrl, length: nat, sink0: int, tz: Tz, tz2: Tz): Ctrl {
    if c.flags.off || length == 0 then c
    else
      var msg0 := if c.flags.displayPort then c.lastMsg else sink0;
      var c1 := Answered(c, tz);
      var out := if tz.resp.len == 0 then INVALID else tz.resp.msg;
      if !tz.ok then c1
      else if msg0 == AKE_SEND_H_PRIME && c.flags.noStoredKm then WakeupClient(c1, Recv)
      else if msg0 == REP_STREAM_READY && out != REP_STREAM_MANAGE then
        if c.flags.resendStream then
          if tz2.ok then WakeupClient(Answered(c1, tz2), Send) else Answered(c1, tz2)
        else WakeupClient(SetHwKey(c1, tz2), LinkPoll)
      else WakeupClient(Noted(c1, msg0, out, tz), Send)
  }

  datatype Event =
    | Start                                   // HDCP_2X_CMD_START
    | Off                                     // HDCP_2X_CMD_STOP and HDCP_2X_CMD_DISABLE
    | DeviceType(displayPort: bool)           // HDCP_2X_CMD_ENABLE
    | StartAuthWork(tz: Tz)
    | MsgSentWork(tz: Tz)
    | MsgRecvdWork(length: nat, sink0: int, tz: Tz, tz2: Tz)
    | TimeoutWork(tz: Tz)
    | StreamWork(tz: Tz)
    | SendTypeWork
    | ManageStreamWork(changed: bool)
    | CleanWork

  function Step(c: Ctrl, e: Event): Ctrl {
    match e
    case Start =>
      c.(lastMsg := INVALID, trace := [],
         flags := c.flags.(noStoredKm := false, repeater := false, updateStream := false, off := false))
    case Off => c.(flags := c.flags.(off := true))
    case DeviceType(dp) => c.(flags := c.flags.(displayPort := dp))
    case StartAuthWork(tz) => StartAuth(c, tz)
    case MsgSentWork(tz) => MsgSent(c, tz)
    case MsgRecvdWork(length, sink0, tz, tz2) => MsgRecvd(c, length, sink0, tz, tz2)
    case TimeoutWork(tz) => Timeout(c, tz)
    case StreamWork(tz) => Stream(c, tz)
    case SendTypeWork => SendType(c)
    case ManageStreamWork(changed) =>
      if changed && !c.flags.authenticated && (c.lastMsg == REP_STREAM_MANAGE || c.lastMsg == REP_STREAM_READY)
      then c.(flags := c.flags.(resendStream := true)) else c
    case CleanWork => c.(flags := c.flags.(authenticated := false, off := true))
  }

  const Registered := Ctrl(INVALID, [], Response(0, 0), Flags(false, false, false, false, false, false, true, false))

  function RunFrom(c: Ctrl, es: seq<Event>): Ctrl {
    if es == [] then c else Step(RunFrom(c, es[..|es| - 1]), es[|es| - 1])
  }

  function Run(es: seq<Event>): Ctrl { RunFrom(Registered, es) }

  // ---------------------------------------------------------------- the order the specification asks for

  /** AKE, locality check, session key exchange, repeater. */
  function Phase(m: int): nat {
    if m == LC_INIT || m == LC_SEND_L_PRIME then 1
    else if m == SKE_SEND_EKS || m == SKE_SEND_TYPE_ID then 2
    else if m == REP_SEND_RECV_ID_LIST || m == REP_SEND_ACK || m == REP_STREAM_MANAGE || m == REP_STREAM_READY then 3
    else 0
  }

  /** A non-empty run of locality checks, each LC_INIT answered by LC_SEND_L_PRIME. */
  ghost predicate LocalityPairs(t: seq<int>) {
    |t| >= 2 && t[|t| - 2] == LC_INIT && t[|t| - 1] == LC_SEND_L_PRIME &&
    (|t| > 2 ==> LocalityPairs(t[..|t| - 2]))
  }

  /** AKE_INIT, certificate, km (stored or not), H'. */
  ghost predicate KeyExchange(t: seq<int>) {
    && |t| == 4 && t[0] == AKE_INIT && t[1] == AKE_SEND_CERT
    && (t[2] == AKE_NO_STORED_KM || t[2] == AKE_STORED_KM) && t[3] == AKE_SEND_H_PRIME
  }

  /** The key exchange, possibly with pairing info. */
  ghost predicate Authenticated(t: seq<int>) {
    KeyExchange(t) || (|t| == 5 && KeyExchange(t[..4]) && t[4] == AKE_SEND_PAIRING_INFO)
  }

  /** Everything that must precede the session key. */
  ghost predicate Handshake(t: seq<int>) {
    exists n :: 0 <= n <= |t| && Authenticated(t[..n]) && LocalityPairs(t[n..])
  }

  // ---------------------------------------------------------------- traces as paths

  /** The steps between announced messages; a stream query may jump to stream management. */
  predicate Edge(a: int, b: int) {
    || b == REP_STREAM_MANAGE
    || (a == AKE_INIT && b == AKE_SEND_CERT)
    || (a == AKE_SEND_CERT && (b == AKE_NO_STORED_KM || b == AKE_STORED_KM))
    || ((a == AKE_NO_STORED_KM || a == AKE_STORED_KM) && b == AKE_SEND_H_PRIME)
    || (a == AKE_SEND_H_PRIME && (b == AKE_SEND_PAIRING_INFO || b == LC_INIT))
    || (a == AKE_SEND_PAIRING_INFO && b == LC_INIT)
    || (a == LC_INIT && b == LC_SEND_L_PRIME)
    || (a == LC_SEND_L_PRIME && (b == LC_INIT || b == SKE_SEND_EKS))
    || (a == SKE_SEND_EKS && (b == SKE_SEND_TYPE_ID || b == REP_SEND_RECV_ID_LIST))
    || (a == SKE_SEND_TYPE_ID && b == SKE_SEND_TYPE_ID)
    || ((a == REP_STREAM_READY || a == REP_SEND_ACK) && b == REP_SEND_RECV_ID_LIST)
    || (a == REP_SEND_RECV_ID_LIST && b == REP_SEND_ACK)
    || (a == REP_STREAM_MANAGE && b == REP_STREAM_READY)
  }

  /** A sequence that starts with AKE_INIT and follows the edges. */
  ghost predicate Path(t: seq<int>) {
    && (t != [] ==> t[0] == AKE_INIT)
    && (forall i :: 0 <= i < |t| ==> t[i] > INVALID)
    && (forall i :: 0 <= i < |t| - 1 ==> Edge(t[i], t[i + 1]))
  }

  /** `last_msg` is the last announced message, and the announced messages form a path. */
  ghost predicate Linked(c: Ctrl) {
    Path(c.trace) && c.lastMsg == if c.trace == [] then INVALID else c.trace[|c.trace| - 1]
  }

  /** Nothing announced yet, or a stream type sent: then the sink is not known as a repeater. */
  predicate Calm(c: Ctrl) {
    c.lastMsg == INVALID || c.lastMsg == SKE_SEND_TYPE_ID ==> !c.flags.repeater
  }

  ghost predicate TraceOk(c: Ctrl) { Linked(c) && Calm(c) }

  lemma {:induction false} PathAppend(t: seq<int>, m: int)
    requires Path(t) && m > INVALID
    requires if t == [] then m == AKE_INIT else Edge(t[|t| - 1], m)
    ensures Path(t + [m])
  {
  }

  lemma {:induction false} NextFollows(c: Ctrl, cmd: Cmd)
    requires cmd == Send || Calm(c)
    ensures var next := NextMessage(c, cmd);
            && (next > INVALID ==> if c.lastMsg == INVALID then next == AKE_INIT else Edge(c.lastMsg, next))
            && (next == SKE_SEND_TYPE_ID ==> !c.flags.repeater)
  {
  }

  /** Every announced message is one the transition function knows. */
  lemma {:induction false} PathMessages(t: seq<int>, i: nat)
    requires Path(t) && i < |t|
    ensures NextMessage(Registered.(lastMsg := t[i]), Send) != -EINVAL
  {
    if i > 0 {
      assert Edge(t[i - 1], t[i]);
    }
  }

  /**
   A wakeup that announces extends the path or resets it; only a wakeup to send may follow news that
   the sink is a repeater.
   */
  lemma {:induction false} WakeupKeeps(c: Ctrl, cmd: Cmd)
    requires Linked(c) && (cmd == Send || Calm(c))
    ensures TraceOk(WakeupClient(c, cmd))
  {
    hide NextMessage, Edge;
    var next := NextMessage(c, cmd);
    if cmd != NoCmd && cmd != Status {
      NextFollows(c, cmd);
      if next > INVALID {
        PathAppend(c.trace, next);
        hide Path;
      } else {
        ResetIsCalm(c, cmd);
        EmptyPath();
      }
    }
  }

  lemma {:induction false} ResetIsCalm(c: Ctrl, cmd: Cmd)
    requires Linked(c) && NextMessage(c, cmd) <= INVALID
    ensures !c.flags.repeater
  {
    if c.trace != [] {
      PathMessages(c.trace, |c.trace| - 1);
    }
  }

  /** The stream query pretends the last message was an acknowledgement; only stream management follows. */
  lemma {:induction false} StreamJumpKeeps(c: Ctrl)
    requires TraceOk(c) && c.flags.repeater
    ensures TraceOk(WakeupClient(c.(lastMsg := REP_SEND_ACK), Send))
    ensures WakeupClient(c.(lastMsg := REP_SEND_ACK), Send).trace == c.trace + [REP_STREAM_MANAGE]
  {
    PathAppend(c.trace, REP_STREAM_MANAGE);
    hide Path;
  }

  lemma {:induction false} MsgSentKeeps(c: Ctrl, tz: Tz)
    requires TraceOk(c)
    ensures TraceOk(MsgSent(c, tz))
  {
    hide WakeupClient, Path;
    WakeupKeeps(SetHwKey(c, tz), LinkPoll);
    WakeupKeeps(TypeIdMessage(c), Send);
    WakeupKeeps(c, LinkPoll);
    WakeupKeeps(c, Recv);
  }

  lemma {:induction false} MsgRecvdKeeps(c: Ctrl, length: nat, sink0: int, tz: Tz, tz2: Tz)
    requires TraceOk(c)
    ensures TraceOk(MsgRecvd(c, length, sink0, tz, tz2))
  {
    hide WakeupClient, Path;
    var c1 := Answered(c, tz);
    WakeupKeeps(c1, Recv);
    WakeupKeeps(Answered(c1, tz2), Send);
    WakeupKeeps(SetHwKey(c1, tz2), LinkPoll);
    WakeupKeeps(Noted(c1, if c.flags.displayPort then c.lastMsg else sink0, if tz.resp.len == 0 then INVALID else tz.resp.msg, tz), Send);
  }

  lemma {:induction false} StepKeeps(c: Ctrl, e: Event)
    requires TraceOk(c)
    ensures TraceOk(Step(c, e))
  {
    hide WakeupClient, Path, MsgSent, MsgRecvd;
    match e {
      case Start => EmptyPath();
      case StartAuthWork(tz) => WakeupKeeps(Answered(c, tz), Send);
      case MsgSentWork(tz) => MsgSentKeeps(c, tz);
      case MsgRecvdWork(length, sink0, tz, tz2) => MsgRecvdKeeps(c, length, sink0, tz, tz2);
      case TimeoutWork(tz) => WakeupKeeps(Answered(c, tz), Send);
      case StreamWork(tz) =>
        if c.flags.repeater { StreamJumpKeeps(Answered(c, tz)); }
      case SendTypeWork => WakeupKeeps(TypeIdMessage(c), Send);
      case _ =>
    }
  }

  lemma {:induction false} EmptyPath()
    ensures Path([])
  {
  }

  lemma {:induction false} RunKeeps(es: seq<Event>)
    ensures TraceOk(Run(es))
  {
    hide Step;
    if es != [] {
      RunKeeps(es[..|es| - 1]);
      StepKeeps(Run(es[..|es| - 1]), es[|es| - 1]);
    }
  }

  // ---------------------------------------------------------------- what paths guarantee

  lemma {:induction false} PhasesForward(t: seq<int>, i: nat, j: nat)
    requires Path(t) && i <= j < |t|
    ensures Phase(t[i]) <= Phase(t[j])
    decreases j
  {
    if i < j {
      PhasesForward(t, i, j - 1);
      assert Edge(t[j - 1], t[j]);
    }
  }

  /** Each message of the handshake determines everything before it. */
  lemma {:induction false} PathShape(t: seq<int>, i: nat)
    requires Path(t) && i < |t|
    ensures t[i] == AKE_INIT ==> i == 0
    ensures t[i] == AKE_SEND_CERT ==> i == 1
    ensures t[i] == AKE_NO_STORED_KM || t[i] == AKE_STORED_KM ==> i == 2
    ensures t[i] == AKE_SEND_H_PRIME ==> i == 3 && KeyExchange(t[..4])
    ensures t[i] == AKE_SEND_PAIRING_INFO ==> i == 4 && Authenticated(t[..5])
    ensures t[i] == LC_INIT ==> Authenticated(t[..i]) || Handshake(t[..i])
    ensures t[i] == LC_SEND_L_PRIME ==> Handshake(t[..i + 1])
    ensures t[i] == SKE_SEND_EKS ==> Handshake(t[..i])
  {
    if i > 0 {
      PathShape(t, i - 1);
      assert Edge(t[i - 1], t[i]);
      if t[i] == AKE_SEND_H_PRIME {
        PathShape(t, 1);
        PathShape(t, 0);
        assert Edge(t[0], t[1]) && Edge(t[1], t[2]);
      }
      if t[i] == AKE_SEND_PAIRING_INFO {
        assert t[..5][..4] == t[..4];
      }
      if t[i] == LC_SEND_L_PRIME {
        AddPair(t[..i - 1]);
        assert t[..i + 1] == t[..i - 1] + [LC_INIT, LC_SEND_L_PRIME];
      }
    }
  }

  lemma {:induction false} AddPair(t: seq<int>)
    requires Authenticated(t) || Handshake(t)
    ensures Handshake(t + [LC_INIT, LC_SEND_L_PRIME])
  {
    var pair := [LC_INIT, LC_SEND_L_PRIME];
    var u := t + pair;
    if Authenticated(t) {
      assert u[..|t|] == t && u[|t|..] == pair;
    } else {
      var n :| 0 <= n <= |t| && Authenticated(t[..n]) && LocalityPairs(t[n..]);
      assert u[..n] == t[..n] && u[n..] == t[n..] + pair;
      assert u[n..][..|u| - n - 2] == t[n..];
    }
  }

  /** Phases only move forward; the session key comes once, after a complete handshake. */
  ghost predicate InOrder(t: seq<int>) {
    && (forall i, j :: 0 <= i <= j < |t| ==> Phase(t[i]) <= Phase(t[j]))
    && (forall i :: 0 <= i < |t| && t[i] == SKE_SEND_EKS ==> Handshake(t[..i]))
    && (forall i, j :: 0 <= i < j < |t| && t[i] == SKE_SEND_EKS ==> t[j] != SKE_SEND_EKS)
  }

  lemma {:induction false} PathInOrder(t: seq<int>)
    requires Path(t)
    ensures InOrder(t)
  {
    hide Handshake, Path;
    forall i, j | 0 <= i <= j < |t| ensures Phase(t[i]) <= Phase(t[j]) {
      PhasesForward(t, i, j);
    }
    forall i | 0 <= i < |t| && t[i] == SKE_SEND_EKS ensures Handshake(t[..i]) {
      PathShape(t, i);
    }
    forall i, j | 0 <= i < j < |t| && t[i] == SKE_SEND_EKS ensures t[j] != SKE_SEND_EKS {
      KeyOnce(t, i, j);
    }
  }

  /**
   In every run, for any TrustZone and sink answers and any number of locality retries: since
   `last_msg` was last reset the announced messages only move forward through the AKE, LC, SKE and
   repeater phases, and the session key is sent at most once and only after a complete handshake.
   */
  lemma {:induction false} RunOrder(es: seq<Event>)
    ensures InOrder(Run(es).trace)
  {
    RunKeeps(es);
    hide Run, InOrder, Path;
    PathInOrder(Run(es).trace);
  }

  lemma {:induction false} KeyOnce(t: seq<int>, i: nat, j: nat)
    requires Path(t) && i < j < |t| && t[i] == SKE_SEND_EKS
    ensures t[j] != SKE_SEND_EKS
  {
    PhasesForward(t, i, j - 1);
    assert Edge(t[j - 1], t[j]);
  }

  // ---------------------------------------------------------------- agreement with TrustZone

  /** The messages the transmitter may have to send in reply to the sink's message `m`. */
  predicate Reply(c: Ctrl, m: int, out: int) {
    || (m == AKE_SEND_CERT && (out == AKE_NO_STORED_KM || out == AKE_STORED_KM))
    || (m == AKE_SEND_H_PRIME && !c.flags.noStoredKm && out == LC_INIT)
    || (m == AKE_SEND_PAIRING_INFO && out == LC_INIT)
    || (m == LC_SEND_L_PRIME && (out == LC_INIT || out == SKE_SEND_EKS))
    || (m == REP_SEND_RECV_ID_LIST && out == REP_SEND_ACK)
    || (m == REP_STREAM_READY && c.flags.repeater && out == REP_STREAM_MANAGE)
  }

  /** The sink's answer to a message of the transmitter. */
  function SinkAnswer(m: int): int {
    if m == AKE_INIT then AKE_SEND_CERT
    else if m == AKE_NO_STORED_KM || m == AKE_STORED_KM then AKE_SEND_H_PRIME
    else if m == LC_INIT then LC_SEND_L_PRIME
    else if m == REP_STREAM_MANAGE then REP_STREAM_READY
    else INVALID
  }

  const No := Tz(false, Response(INVALID, 0), false)

  function Yes(out: int, repeater: bool): Tz { Tz(true, Response(out, 1), repeater) }

  /** The sink sends `m` and TrustZone replies `out`; the transmitter's message has gone out. */
  function Sink(m: int, out: int, repeater: bool): Event { MsgRecvdWork(1, m, Yes(out, repeater), No) }

  const Sent := MsgSentWork(No)

  /** HDCP is on, the sink is not authenticated and the messages in `t` have been announced. */
  ghost predicate Live(c: Ctrl, dp: bool, t: seq<int>) {
    && c.trace == t && t != [] && c.lastMsg == t[|t| - 1] && !c.flags.off && c.flags.displayPort == dp
    && !c.flags.authenticated && !c.flags.resendStream
  }

  /** The sink answered the awaited message, and TrustZone replied with one that may follow it. */
  ghost predicate Replies(c: Ctrl, length: nat, sink0: int, tz: Tz) {
    && !c.flags.off && length > 0 && (c.flags.displayPort || sink0 == c.lastMsg)
    && tz.ok && tz.resp.len > 0 && Reply(c, c.lastMsg, tz.resp.msg)
  }

  /** Then the message announced next is the one TrustZone asked for, including every locality retry. */
  lemma {:induction false} ReplyAnnounced(c: Ctrl, length: nat, sink0: int, tz: Tz, tz2: Tz)
    requires Replies(c, length, sink0, tz)
    ensures var r := Step(c, MsgRecvdWork(length, sink0, tz, tz2)); var out := tz.resp.msg;
            && r.trace == c.trace + [out] && r.lastMsg == out && r.resp == tz.resp
            && (out == AKE_NO_STORED_KM <==> r.flags.noStoredKm)
            && r.flags.off == c.flags.off && r.flags.displayPort == c.flags.displayPort
            && r.flags.repeater == (if out == SKE_SEND_EKS then tz.repeater else c.flags.repeater)
            && (r.flags.updateStream <==> c.flags.updateStream || out == SKE_SEND_EKS)
            && r.flags.authenticated == c.flags.authenticated && (r.flags.resendStream ==> c.flags.resendStream)
            && (r.flags.resendLc <==> c.lastMsg == LC_SEND_L_PRIME && out == LC_INIT)
  {
    var noted := Noted(Answered(c, tz), c.lastMsg, tz.resp.msg, tz);
    assert MsgRecvd(c, length, sink0, tz, tz2) == WakeupClient(noted, Send) by { hide WakeupClient; }
    hide MsgRecvd;
    assert NextMessage(noted, Send) == tz.resp.msg;
  }

  lemma {:induction false} AnnouncesReply(c: Ctrl, dp: bool, t: seq<int>, out: int, repeater: bool)
    requires Live(c, dp, t) && Reply(c, c.lastMsg, out)
    ensures var r := Step(c, Sink(c.lastMsg, out, repeater));
            && Live(r, dp, t + [out]) && r.resp.msg == out
            && (out == AKE_NO_STORED_KM <==> r.flags.noStoredKm)
            && r.flags.repeater == (if out == SKE_SEND_EKS then repeater else c.flags.repeater)
            && (r.flags.updateStream <==> c.flags.updateStream || out == SKE_SEND_EKS)
            && (r.flags.resendLc <==> c.lastMsg == LC_SEND_L_PRIME && out == LC_INIT)
  {
    hide Step;
    ReplyAnnounced(c, 1, c.lastMsg, Yes(out, repeater), No);
  }

  /** After a message went out, the sink's answer to that message is awaited next. */
  lemma {:induction false} AnnouncesAnswer(c: Ctrl, dp: bool, t: seq<int>)
    requires Live(c, dp, t) && c.resp.msg == c.lastMsg && SinkAnswer(c.lastMsg) != INVALID
    ensures Live(Step(c, Sent), dp, t + [SinkAnswer(c.lastMsg)]) && Step(c, Sent).flags == c.flags
  {
  }

  /** A first pairing: H' is followed by the pairing info. */
  lemma {:induction false} AnnouncesPairing(c: Ctrl, dp: bool, t: seq<int>, out: int)
    requires Live(c, dp, t) && c.lastMsg == AKE_SEND_H_PRIME && c.flags.noStoredKm
    ensures Live(Step(c, Sink(AKE_SEND_H_PRIME, out, false)), dp, t + [AKE_SEND_PAIRING_INFO])
  {
  }

  /** After the session key was sent, a repeater is polled for its receiver list; a receiver gets its stream type. */
  lemma {:induction false} AnnouncesAfterKey(c: Ctrl, dp: bool, t: seq<int>)
    requires Live(c, dp, t) && c.lastMsg == c.resp.msg == SKE_SEND_EKS
    ensures Live(Step(c, Sent), dp, t + [if c.flags.repeater then REP_SEND_RECV_ID_LIST else SKE_SEND_TYPE_ID])
    ensures Step(c, Sent).flags == c.flags && (!c.flags.repeater ==> Step(c, Sent).resp.msg == SKE_SEND_TYPE_ID)
  {
  }

  lemma {:induction false} RunMore(es: seq<Event>, e: Event)
    ensures Run(es + [e]) == Step(Run(es), e)
  {
    assert (es + [e])[..|es|] == es;
  }

  // ---------------------------------------------------------------- a session with willing partners

  function Km(noKm: bool): int { if noKm then AKE_NO_STORED_KM else AKE_STORED_KM }

  /** Start to H'. */
  function ToHPrime(noKm: bool, dp: bool): seq<Event> {
    [DeviceType(dp)] + [Start] + [StartAuthWork(Yes(AKE_INIT, false))] + [Sent] +
    [Sink(AKE_SEND_CERT, Km(noKm), false)] + [Sent]
  }

  /** On to the first locality check. */
  function ToLocality(noKm: bool, dp: bool): seq<Event> {
    (if noKm
     then ToHPrime(noKm, dp) + [Sink(AKE_SEND_H_PRIME, INVALID, false)] + [Sink(AKE_SEND_PAIRING_INFO, LC_INIT, false)]
     else ToHPrime(noKm, dp) + [Sink(AKE_SEND_H_PRIME, LC_INIT, false)]) + [Sent]
  }

  /** `n` failed locality checks, each answered by another LC_INIT. */
  function Retried(noKm: bool, dp: bool, n: nat): seq<Event> {
    if n == 0 then ToLocality(noKm, dp)
    else Retried(noKm, dp, n - 1) + [Sink(LC_SEND_L_PRIME, LC_INIT, false)] + [Sent]
  }

  function Session(noKm: bool, dp: bool, n: nat, repeater: bool): seq<Event> {
    Retried(noKm, dp, n) + [Sink(LC_SEND_L_PRIME, SKE_SEND_EKS, repeater)] + [Sent]
  }

  /** The messages of sections 2.2 and 2.3 of the specification, with `n` retries of the locality check. */
  function Exchanged(noKm: bool, n: nat): seq<int> {
    if n == 0 then
      [AKE_INIT, AKE_SEND_CERT, Km(noKm), AKE_SEND_H_PRIME] +
      (if noKm then [AKE_SEND_PAIRING_INFO] else []) + [LC_INIT, LC_SEND_L_PRIME]
    else Exchanged(noKm, n - 1) + [LC_INIT, LC_SEND_L_PRIME]
  }

  lemma {:induction false} ReachesHPrime(noKm: bool, dp: bool)
    ensures Live(Run(ToHPrime(noKm, dp)), dp, [AKE_INIT, AKE_SEND_CERT, Km(noKm), AKE_SEND_H_PRIME])
    ensures Run(ToHPrime(noKm, dp)).flags.noStoredKm == noKm
  {
    var es2 := [DeviceType(dp)] + [Start];
    RunMore([], DeviceType(dp));
    assert [] + [DeviceType(dp)] == [DeviceType(dp)];
    RunMore([DeviceType(dp)], Start);
    var es3 := es2 + [StartAuthWork(Yes(AKE_INIT, false))];
    RunMore(es2, StartAuthWork(Yes(AKE_INIT, false)));
    assert Live(Run(es3), dp, [AKE_INIT]) && Run(es3).resp.msg == AKE_INIT;
    hide Step, Run, Live;
    var es4 := es3 + [Sent];
    RunMore(es3, Sent);
    StepAnswer(Run(es3), dp, [AKE_INIT], AKE_INIT);
    var es5 := es4 + [Sink(AKE_SEND_CERT, Km(noKm), false)];
    RunMore(es4, Sink(AKE_SEND_CERT, Km(noKm), false));
    StepReply(Run(es4), dp, [AKE_INIT, AKE_SEND_CERT], AKE_SEND_CERT, Km(noKm), false);
    RunMore(es5, Sent);
    StepAnswer(Run(es5), dp, [AKE_INIT, AKE_SEND_CERT, Km(noKm)], Km(noKm));
  }

  /** The two step lemmas with the last message named. */
  lemma {:induction false} StepAnswer(c: Ctrl, dp: bool, t: seq<int>, m: int)
    requires Live(c, dp, t) && t[|t| - 1] == m && c.resp.msg == m && SinkAnswer(m) != INVALID
    ensures Live(Step(c, Sent), dp, t + [SinkAnswer(m)])
    ensures Step(c, Sent).flags == c.flags
  {
    hide Step;
    AnnouncesAnswer(c, dp, t);
  }

  lemma {:induction false} StepReply(c: Ctrl, dp: bool, t: seq<int>, m: int, out: int, repeater: bool)
    requires Live(c, dp, t) && t[|t| - 1] == m && Reply(c, m, out)
    ensures var r := Step(c, Sink(m, out, repeater));
            && Live(r, dp, t + [out]) && r.resp.msg == out
            && (out == AKE_NO_STORED_KM <==> r.flags.noStoredKm)
            && (out == SKE_SEND_EKS ==> r.flags.repeater == repeater && r.flags.updateStream)
            && (out != SKE_SEND_EKS ==> r.flags.repeater == c.flags.repeater && r.flags.updateStream == c.flags.updateStream)
            && (r.flags.resendLc <==> m == LC_SEND_L_PRIME && out == LC_INIT)
  {
    hide Step;
    AnnouncesReply(c, dp, t, out, repeater);
  }

  lemma {:induction false} ReachesLocality(noKm: bool, dp: bool)
    ensures Live(Run(ToLocality(noKm, dp)), dp, Exchanged(noKm, 0)) && !Run(ToLocality(noKm, dp)).flags.resendLc
  {
    var es, t := ToHPrime(noKm, dp), [AKE_INIT, AKE_SEND_CERT, Km(noKm), AKE_SEND_H_PRIME];
    ReachesHPrime(noKm, dp);
    hide ToHPrime, Step, Run, Live;
    if noKm {
      RunMore(es, Sink(AKE_SEND_H_PRIME, INVALID, false));
      StepPairing(Run(es), dp, t);
      es, t := es + [Sink(AKE_SEND_H_PRIME, INVALID, false)], t + [AKE_SEND_PAIRING_INFO];
    }
    var m := t[|t| - 1];
    RunMore(es, Sink(m, LC_INIT, false));
    StepReply(Run(es), dp, t, m, LC_INIT, false);
    es, t := es + [Sink(m, LC_INIT, false)], t + [LC_INIT];
    RunMore(es, Sent);
    StepAnswer(Run(es), dp, t, LC_INIT);
    assert t + [LC_SEND_L_PRIME] == Exchanged(noKm, 0);
  }

  lemma {:induction false} StepPairing(c: Ctrl, dp: bool, t: seq<int>)
    requires Live(c, dp, t) && t[|t| - 1] == AKE_SEND_H_PRIME && c.flags.noStoredKm
    ensures Live(Step(c, Sink(AKE_SEND_H_PRIME, INVALID, false)), dp, t + [AKE_SEND_PAIRING_INFO])
  {
    hide Step;
    AnnouncesPairing(c, dp, t, INVALID);
  }

  lemma {:induction false} ExchangedEnds(noKm: bool, n: nat)
    ensures Exchanged(noKm, n) != [] && Exchanged(noKm, n)[|Exchanged(noKm, n)| - 1] == LC_SEND_L_PRIME
  {
  }

  lemma {:induction false} ReachesRetry(noKm: bool, dp: bool, n: nat)
    ensures Live(Run(Retried(noKm, dp, n)), dp, Exchanged(noKm, n))
    ensures Run(Retried(noKm, dp, n)).flags.resendLc <==> n > 0
  {
    if n == 0 {
      ReachesLocality(noKm, dp);
    } else {
      ReachesRetry(noKm, dp, n - 1);
      var es, t := Retried(noKm, dp, n - 1), Exchanged(noKm, n - 1);
      ExchangedEnds(noKm, n - 1);
      hide Step, Run, Live;
      RunMore(es, Sink(LC_SEND_L_PRIME, LC_INIT, false));
      StepReply(Run(es), dp, t, LC_SEND_L_PRIME, LC_INIT, false);
      var es1 := es + [Sink(LC_SEND_L_PRIME, LC_INIT, false)];
      RunMore(es1, Sent);
      StepAnswer(Run(es1), dp, t + [LC_INIT], LC_INIT);
      assert t + [LC_INIT] + [LC_SEND_L_PRIME] == Exchanged(noKm, n);
    }
  }

  lemma {:induction false} ReachesKey(noKm: bool, dp: bool, n: nat, repeater: bool)
    ensures var c := Run(Session(noKm, dp, n, repeater));
            && Live(c, dp, Exchanged(noKm, n) + [SKE_SEND_EKS, if repeater then REP_SEND_RECV_ID_LIST else SKE_SEND_TYPE_ID])
            && c.flags.repeater == repeater && c.flags.updateStream && (!repeater ==> c.resp.msg == SKE_SEND_TYPE_ID)
  {
    ReachesRetry(noKm, dp, n);
    ExchangedEnds(noKm, n);
    var es, t := Retried(noKm, dp, n), Exchanged(noKm, n);
    hide Run, Retried, Exchanged;
    RunMore(es, Sink(LC_SEND_L_PRIME, SKE_SEND_EKS, repeater));
    var es1 := es + [Sink(LC_SEND_L_PRIME, SKE_SEND_EKS, repeater)];
    RunMore(es1, Sent);
    hide Step;
    StepReply(Run(es), dp, t, LC_SEND_L_PRIME, SKE_SEND_EKS, repeater);
    AnnouncesAfterKey(Run(es1), dp, t + [SKE_SEND_EKS]);
    var m := if repeater then REP_SEND_RECV_ID_LIST else SKE_SEND_TYPE_ID;
    assert t + [SKE_SEND_EKS] + [m] == t + [SKE_SEND_EKS, m];
  }

  /** TrustZone's answer to the request for the hardware key. */
  function KeyAnswer(accepted: bool): Tz { Tz(accepted, Response(INVALID, 0), false) }

  /** The sink says it is ready, TrustZone has nothing to send, and is asked for the key. */
  function Ready(accepted: bool): Event { MsgRecvdWork(1, REP_STREAM_READY, Tz(true, Response(INVALID, 0), false), KeyAnswer(accepted)) }

  /** A repeater's receiver list is acknowledged, its streams are managed, and it is ready. */
  function RepeaterSteps(): seq<Event> {
    [Sink(REP_SEND_RECV_ID_LIST, REP_SEND_ACK, false)] + [Sent] + [StreamWork(Yes(REP_STREAM_MANAGE, false))] + [Sent]
  }

  function FullSession(noKm: bool, dp: bool, n: nat, repeater: bool, accepted: bool): seq<Event> {
    if repeater then Session(noKm, dp, n, repeater) + RepeaterSteps() + [Ready(accepted)]
    else Session(noKm, dp, n, repeater) + [MsgSentWork(KeyAnswer(accepted))]
  }

  /** The messages after the session key; the last one is the link check that follows authentication. */
  function AfterKey(repeater: bool): seq<int> {
    if repeater then [SKE_SEND_EKS, REP_SEND_RECV_ID_LIST, REP_SEND_ACK, REP_STREAM_MANAGE, REP_STREAM_READY, REP_SEND_RECV_ID_LIST]
    else [SKE_SEND_EKS, SKE_SEND_TYPE_ID, SKE_SEND_TYPE_ID]
  }

  /** After its acknowledgement a repeater waits for the stream query instead of a message. */
  lemma {:induction false} AcknowledgedSilently(c: Ctrl, dp: bool, t: seq<int>)
    requires Live(c, dp, t) && c.resp.msg == REP_SEND_ACK && c.flags.updateStream
    ensures var r := Step(c, Sent); r == c.(flags := c.flags.(updateStream := false)) && Live(r, dp, t)
  {
  }

  lemma {:induction false} StreamsManaged(c: Ctrl, dp: bool, t: seq<int>)
    requires Live(c, dp, t) && c.resp.msg == REP_SEND_ACK && c.flags.repeater
    ensures var r := Step(c, StreamWork(Yes(REP_STREAM_MANAGE, false)));
            Live(r, dp, t + [REP_STREAM_MANAGE]) && r.resp.msg == REP_STREAM_MANAGE && r.flags == c.flags
  {
  }

  /** A ready repeater is authenticated exactly when TrustZone accepts the key. */
  lemma {:induction false} ReadyAuthenticates(c: Ctrl, dp: bool, t: seq<int>, accepted: bool)
    requires Live(c, dp, t) && c.lastMsg == REP_STREAM_READY && c.flags.repeater
    ensures var r := Step(c, Ready(accepted)); r.flags.authenticated == accepted && r.trace == t + [REP_SEND_RECV_ID_LIST]
  {
  }

  /** A receiver is authenticated exactly when TrustZone accepts the key after the stream type went out. */
  lemma {:induction false} TypeAuthenticates(c: Ctrl, dp: bool, t: seq<int>, accepted: bool)
    requires Live(c, dp, t) && c.lastMsg == SKE_SEND_TYPE_ID == c.resp.msg && !c.flags.repeater
    ensures var r := Step(c, MsgSentWork(KeyAnswer(accepted))); r.flags.authenticated == accepted && r.trace == t + [SKE_SEND_TYPE_ID]
  {
  }

  lemma {:induction false} RepeaterReady(es: seq<Event>, dp: bool, t: seq<int>)
    requires Live(Run(es), dp, t) && t[|t| - 1] == REP_SEND_RECV_ID_LIST
    requires Run(es).flags.repeater && Run(es).flags.updateStream
    ensures var c := Run(es + RepeaterSteps());
            Live(c, dp, t + [REP_SEND_ACK, REP_STREAM_MANAGE, REP_STREAM_READY]) && c.flags.repeater
  {
    hide Step, Run, Live;
    var e1, e3 := Sink(REP_SEND_RECV_ID_LIST, REP_SEND_ACK, false), StreamWork(Yes(REP_STREAM_MANAGE, false));
    var es1, es2 := es + [e1], es + [e1] + [Sent];
    RunMore(es, e1);
    StepReply(Run(es), dp, t, REP_SEND_RECV_ID_LIST, REP_SEND_ACK, false);
    RunMore(es1, Sent);
    AcknowledgedSilently(Run(es1), dp, t + [REP_SEND_ACK]);
    RunMore(es2, e3);
    StreamsManaged(Run(es2), dp, t + [REP_SEND_ACK]);
    var es3, t3 := es2 + [e3], t + [REP_SEND_ACK] + [REP_STREAM_MANAGE];
    RunMore(es3, Sent);
    StepAnswer(Run(es3), dp, t3, REP_STREAM_MANAGE);
    assert es + RepeaterSteps() == es3 + [Sent];
    assert t3 + [REP_STREAM_READY] == t + [REP_SEND_ACK, REP_STREAM_MANAGE, REP_STREAM_READY];
  }

  /**
   With a willing sink and TrustZone a session goes through: for a stored or a new km, over HDMI or
   DisplayPort, after any number of locality retries, for a receiver or a repeater, the announced
   messages are exactly those of the specification, and at the end the sink is authenticated exactly
   when TrustZone accepts the hardware key.
   */
  lemma {:induction false} SessionCompletes(noKm: bool, dp: bool, n: nat, repeater: bool, accepted: bool)
    ensures var c := Run(FullSession(noKm, dp, n, repeater, accepted));
            c.trace == Exchanged(noKm, n) + AfterKey(repeater) && c.flags.authenticated == accepted
  {
    var es, t := Session(noKm, dp, n, repeater), Exchanged(noKm, n);
    ReachesKey(noKm, dp, n, repeater);
    hide Step, Run, Session, Exchanged;
    if repeater {
      var t1 := t + [SKE_SEND_EKS, REP_SEND_RECV_ID_LIST];
      RepeaterReady(es, dp, t1);
      var es1, t2 := es + RepeaterSteps(), t1 + [REP_SEND_ACK, REP_STREAM_MANAGE, REP_STREAM_READY];
      RunMore(es1, Ready(accepted));
      ReadyAuthenticates(Run(es1), dp, t2, accepted);
      assert t2 + [REP_SEND_RECV_ID_LIST] == t + AfterKey(true);
    } else {
      var t1 := t + [SKE_SEND_EKS, SKE_SEND_TYPE_ID];
      RunMore(es, MsgSentWork(KeyAnswer(accepted)));
      TypeAuthenticates(Run(es), dp, t1, accepted);
      assert t1 + [SKE_SEND_TYPE_ID] == t + AfterKey(false);
    }
  }

  /** Streams that change before the repeater is ready are managed once more before the key is asked for. */
  lemma {:induction false} ChangedStreamsResent(c: Ctrl, dp: bool, t: seq<int>, accepted: bool)
    requires Live(c, dp, t) && c.lastMsg == REP_STREAM_READY && c.flags.repeater
    ensures var c1 := Step(c, ManageStreamWork(true));
            var c2 := Step(c1, MsgRecvdWork(1, REP_STREAM_READY, Tz(true, Response(INVALID, 0), false), Yes(REP_STREAM_MANAGE, false)));
            var c3 := Step(c2, Sent);
            && c2.trace == t + [REP_STREAM_MANAGE] && !c2.flags.authenticated
            && Live(c3, dp, t + [REP_STREAM_MANAGE, REP_STREAM_READY]) && c3.flags.repeater
            && Step(c3, Ready(accepted)).flags.authenticated == accepted
  {
    var c1 := Step(c, ManageStreamWork(true));
    assert c1 == c.(flags := c.flags.(resendStream := true));
    var tz, tz2 := Tz(true, Response(INVALID, 0), false), Yes(REP_STREAM_MANAGE, false);
    var c2 := Step(c1, MsgRecvdWork(1, REP_STREAM_READY, tz, tz2));
    assert c2 == WakeupClient(Answered(Answered(c1, tz), tz2), Send) by { hide WakeupClient; }
    assert c2 == c1.(resp := tz2.resp, lastMsg := REP_STREAM_MANAGE, trace := t + [REP_STREAM_MANAGE]);
    var c3 := Step(c2, Sent);
    assert c3 == WakeupClient(c2, Recv) by { hide WakeupClient; }
    assert t + [REP_STREAM_MANAGE] + [REP_STREAM_READY] == t + [REP_STREAM_MANAGE, REP_STREAM_READY];
    assert Live(c3, dp, t + [REP_STREAM_MANAGE, REP_STREAM_READY]);
    hide Step;
    ReadyAuthenticates(c3, dp, t + [REP_STREAM_MANAGE, REP_STREAM_READY], accepted);
  }

  /**
   After a timeout TrustZone may ask for another locality check. The announced message is then
   LC_INIT too exactly when the awaited message leads there; while L' is awaited that takes an
   earlier retry, otherwise the session key is announced.
   */
  lemma {:induction false} TimeoutAgreesIff(c: Ctrl, dp: bool, t: seq<int>)
    requires Live(c, dp, t)
    ensures var r := Step(c, TimeoutWork(Yes(LC_INIT, false)));
            && (r.trace == t + [LC_INIT] <==>
                  (c.lastMsg == AKE_SEND_H_PRIME && !c.flags.noStoredKm) || c.lastMsg == AKE_SEND_PAIRING_INFO ||
                  (c.lastMsg == LC_SEND_L_PRIME && c.flags.resendLc))
            && (c.lastMsg == LC_SEND_L_PRIME && !c.flags.resendLc ==> r.trace == t + [SKE_SEND_EKS])
  {
    var r := Step(c, TimeoutWork(Yes(LC_INIT, false)));
    var next := NextMessage(c, Send);
    assert r.trace == if next <= INVALID then [] else t + [next];
    assert r.trace != [] ==> r.trace[|t|] == next;
  }

  /**
   So in a session whose sink does not answer the locality check in time, and TrustZone asks for
   another one: after an earlier retry LC_INIT is announced, but at the first time the session key is.
   */
  lemma {:induction false} TimeoutInSession(noKm: bool, dp: bool, n: nat)
    ensures Run(Retried(noKm, dp, n) + [TimeoutWork(Yes(LC_INIT, false))]).trace ==
            Exchanged(noKm, n) + [if n > 0 then LC_INIT else SKE_SEND_EKS]
  {
    var es, e := Retried(noKm, dp, n), TimeoutWork(Yes(LC_INIT, false));
    ReachesRetry(noKm, dp, n);
    ExchangedEnds(noKm, n);
    RunMore(es, e);
    hide Run, Step, Retried, Exchanged;
    TimeoutAgreesIff(Run(es), dp, Exchanged(noKm, n));
  }

  // ---------------------------------------------------------------- exactly when the sink is authenticated

  /** The message that came from the sink; on DisplayPort it is taken to be the awaited one. */
  function FromSink(c: Ctrl, sink0: int): int { if c.flags.displayPort then c.lastMsg else sink0 }

  /** TrustZone processes the sink's message `m`. */
  predicate Processes(c: Ctrl, length: nat, sink0: int, tz: Tz, m: int) {
    !c.flags.off && length > 0 && tz.ok && FromSink(c, sink0) == m
  }

  /** TrustZone's reply is stream management. */
  predicate RepliesStreams(tz: Tz) { tz.resp.len > 0 && tz.resp.msg == REP_STREAM_MANAGE }

  /**
   TrustZone is asked for the hardware key and accepts: after the stream type went out, or when a
   repeater is ready, needs no stream management and no change of streams is pending.
   */
  predicate KeyAccepted(c: Ctrl, e: Event) {
    (e.MsgSentWork? && c.resp.msg == SKE_SEND_TYPE_ID && e.tz.ok) ||
    (e.MsgRecvdWork? && Processes(c, e.length, e.sink0, e.tz, REP_STREAM_READY) && !RepliesStreams(e.tz) &&
     !c.flags.resendStream && e.tz2.ok)
  }

  predicate KeepsFlags(c: Ctrl, r: Ctrl) {
    r.flags.authenticated == c.flags.authenticated && r.flags.off == c.flags.off && r.flags.repeater == c.flags.repeater
  }

  lemma {:induction false} WakeupKeepsFlags(c: Ctrl, cmd: Cmd)
    ensures KeepsFlags(c, WakeupClient(c, cmd))
  {
    hide NextMessage;
  }

  /** One step: only an accepted key authenticates, and only a cleanup undoes it. */
  lemma {:induction false} StepAuthenticatedIff(c: Ctrl, e: Event)
    ensures Step(c, e).flags.authenticated <==> !e.CleanWork? && (c.flags.authenticated || KeyAccepted(c, e))
  {
    hide WakeupClient;
    forall c', cmd ensures KeepsFlags(c', WakeupClient(c', cmd)) {
      WakeupKeepsFlags(c', cmd);
    }
  }

  ghost predicate AcceptedAt(es: seq<Event>, n: nat)
    requires n < |es|
  {
    KeyAccepted(Run(es[..n]), es[n]) && forall m :: n < m < |es| ==> !es[m].CleanWork?
  }

  lemma {:induction false} AcceptedPrefix(es: seq<Event>, n: nat)
    requires n < |es| - 1
    ensures AcceptedAt(es, n) <==> AcceptedAt(es[..|es| - 1], n) && !es[|es| - 1].CleanWork?
  {
    hide Run, KeyAccepted;
    var k := |es| - 1;
    var init := es[..k];
    assert init[..n] == es[..n];
    assert forall m :: 0 <= m < k ==> init[m] == es[m];
    if AcceptedAt(init, n) && !es[k].CleanWork? {
      forall m | n < m < |es| ensures !es[m].CleanWork? {
        if m < k {
          assert !init[m].CleanWork?;
        }
      }
    }
  }

  /** Over every run the sink is authenticated exactly when a key was accepted and no cleanup came after it. */
  lemma {:induction false} RunAuthenticatedIff(es: seq<Event>)
    ensures Run(es).flags.authenticated <==> exists n :: 0 <= n < |es| && AcceptedAt(es, n)
  {
    if es != [] {
      var k := |es| - 1;
      RunAuthenticatedIff(es[..k]);
      StepAuthenticatedIff(Run(es[..k]), es[k]);
      assert Run(es) == Step(Run(es[..k]), es[k]);
      assert AcceptedAt(es, k) <==> KeyAccepted(Run(es[..k]), es[k]);
      hide Run, Step, KeyAccepted, AcceptedAt;
      forall n | 0 <= n < k ensures AcceptedAt(es, n) <==> AcceptedAt(es[..k], n) && !es[k].CleanWork? {
        AcceptedPrefix(es, n);
      }
      if es[k].CleanWork? {
        CleanNotAccepted(es);
      }
    }
  }

  lemma {:induction false} CleanNotAccepted(es: seq<Event>)
    requires es != [] && es[|es| - 1].CleanWork?
    ensures !AcceptedAt(es, |es| - 1)
  {
  }

  /** The work items that announce something: at their start, by HDCP being on, by the kind of sink, by TrustZone. */
  predicate Announces(c: Ctrl, e: Event) {
    match e
    case Start => c.trace != []
    case StartAuthWork(tz) => tz.ok
    case MsgSentWork(tz) => !(c.resp.msg == REP_SEND_ACK && c.flags.updateStream)
    case MsgRecvdWork(length, sink0, tz, tz2) =>
      !c.flags.off && length > 0 && tz.ok &&
      (Processes(c, length, sink0, tz, REP_STREAM_READY) && !RepliesStreams(tz) && c.flags.resendStream ==> tz2.ok)
    case TimeoutWork(tz) => !c.flags.off && tz.ok && tz.resp.msg == LC_INIT
    case StreamWork(tz) => !c.flags.off && c.flags.repeater && (c.flags.authenticated || c.resp.msg == REP_SEND_ACK) && tz.ok
    case SendTypeWork => !c.flags.off && !c.flags.repeater
    case _ => false
  }

  lemma {:induction false} WakeupAnnounces(c: Ctrl, cmd: Cmd)
    requires Linked(c)
    ensures WakeupClient(c, cmd).trace != c.trace <==> cmd != NoCmd && cmd != Status
  {
    if cmd != NoCmd && cmd != Status && NextMessage(c, cmd) > INVALID {
      assert |WakeupClient(c, cmd).trace| == |c.trace| + 1;
    }
  }

  /** The announced sequence changes exactly then. */
  lemma {:induction false} AnnouncesIff(c: Ctrl, e: Event)
    requires TraceOk(c)
    ensures Step(c, e).trace != c.trace <==> Announces(c, e)
  {
    hide Path, WakeupClient;
    forall c': Ctrl, cmd | c'.trace == c.trace && c'.lastMsg == c.lastMsg
      ensures WakeupClient(c', cmd).trace != c.trace <==> cmd != NoCmd && cmd != Status
    {
      WakeupAnnounces(c', cmd);
    }
    if e.StreamWork? && c.flags.repeater {
      StreamJumpKeeps(Answered(c, e.tz));
    }
  }

  /** A pending resend is noted exactly when streams change before a repeater is ready, and spent when its READY is awaited. */
  lemma {:induction false} ResendIff(c: Ctrl, e: Event)
    ensures Step(c, e).flags.resendStream <==>
            if e.ManageStreamWork? then
              c.flags.resendStream ||
              (e.changed && !c.flags.authenticated && (c.lastMsg == REP_STREAM_MANAGE || c.lastMsg == REP_STREAM_READY))
            else
              c.flags.resendStream && !(c.lastMsg == REP_STREAM_MANAGE && Announces(c, e) && !e.Start? && !e.StreamWork?)
  {
    hide WakeupClient;
    forall c': Ctrl, cmd ensures WakeupClient(c', cmd).flags.resendStream <==>
        c'.flags.resendStream && (c'.lastMsg != REP_STREAM_MANAGE || cmd == NoCmd || cmd == Status)
    {
      WakeupResend(c', cmd);
    }
  }

  lemma {:induction false} WakeupResend(c: Ctrl, cmd: Cmd)
    ensures WakeupClient(c, cmd).flags.resendStream <==>
            c.flags.resendStream && (c.lastMsg != REP_STREAM_MANAGE || cmd == NoCmd || cmd == Status)
  {
    hide NextMessage;
  }

  /** If HDCP was switched off meanwhile, the stream type is sent after the key, to a repeater as a stream message. */
  lemma {:induction false} OffAfterKey(c: Ctrl, tz: Tz)
    requires c.lastMsg == c.resp.msg == SKE_SEND_EKS && c.flags.off
    ensures var r := Step(c, MsgSentWork(tz));
            r.resp.msg == SKE_SEND_TYPE_ID && r.trace == c.trace + [if c.flags.repeater then REP_STREAM_MANAGE else SKE_SEND_TYPE_ID]
  {
  }

  /** TrustZone is not asked for the key a second time: its answer leaves no mark. */
  lemma {:induction false} KeyAskedOnce(c: Ctrl, tz: Tz)
    requires c.flags.authenticated && c.resp.msg == SKE_SEND_TYPE_ID
    ensures Step(c, MsgSentWork(tz)) == Step(c, MsgSentWork(No)) && Step(c, MsgSentWork(tz)).resp == c.resp
  {
    hide NextMessage;
  }

  /** HDCP is on from a start to a stop, disable or cleanup. */
  lemma {:induction false} OffIff(c: Ctrl, e: Event)
    ensures Step(c, e).flags.off <==> !e.Start? && (c.flags.off || e.Off? || e.CleanWork?)
  {
    hide WakeupClient;
    forall c', cmd ensures KeepsFlags(c', WakeupClient(c', cmd)) {
      WakeupKeepsFlags(c', cmd);
    }
  }

  /** The kind of sink is known from the session key that TrustZone replies with, until the next start. */
  lemma {:induction false} RepeaterIff(c: Ctrl, e: Event)
    ensures e.Start? ==> !Step(c, e).flags.repeater
    ensures !e.Start? && !e.MsgRecvdWork? ==> Step(c, e).flags.repeater == c.flags.repeater
    ensures e.MsgRecvdWork? && Step(c, e).flags.repeater != c.flags.repeater ==>
              !c.flags.off && e.tz.ok && e.tz.resp.msg == SKE_SEND_EKS && Step(c, e).flags.repeater == e.tz.repeater
  {
    hide WakeupClient;
    forall c', cmd ensures KeepsFlags(c', WakeupClient(c', cmd)) {
      WakeupKeepsFlags(c', cmd);
    }
  }

  // ---------------------------------------------------------------- exactly the paths are announced

  ghost predicate Announced(t: seq<int>) { exists es :: Run(es).trace == t }

  /** A state from which every edge can be provoked. */
  ghost predicate Pliable(c: Ctrl, t: seq<int>) {
    && c.trace == t && c.lastMsg == (if t == [] then INVALID else t[|t| - 1])
    && !c.flags.off && !c.flags.displayPort && c.resp.msg == REP_SEND_ACK
    && c.flags.repeater == (t != [] && t[|t| - 1] != SKE_SEND_TYPE_ID)
  }

  /** Sets the response buffer and nothing else. */
  function Mute(msg: int): Event { TimeoutWork(Tz(false, Response(msg, 0), false)) }

  /** The event that makes message `b` follow message `a`; INVALID stands for the start. */
  function Provokes(a: int, b: int): Event {
    if b == REP_STREAM_MANAGE && a != SKE_SEND_TYPE_ID then StreamWork(Yes(INVALID, false))
    else if b == REP_SEND_RECV_ID_LIST then MsgSentWork(No)
    else if b == AKE_INIT || b == REP_STREAM_MANAGE then Sink(INVALID, SKE_SEND_EKS, true)
    else if b == SKE_SEND_TYPE_ID then Sink(INVALID, SKE_SEND_EKS, false)
    else if a == LC_SEND_L_PRIME && b == LC_INIT then Sink(LC_SEND_L_PRIME, LC_INIT, false)
    else if b == AKE_NO_STORED_KM || b == AKE_SEND_PAIRING_INFO then Sink(INVALID, AKE_NO_STORED_KM, false)
    else Sink(INVALID, INVALID, false)
  }

  lemma {:induction false} EdgeProvoked(c: Ctrl, t: seq<int>, b: int)
    requires Pliable(c, t) && b > INVALID
    requires if t == [] then b == AKE_INIT else t[|t| - 1] > INVALID && Edge(t[|t| - 1], b)
    ensures var c1 := if b == REP_SEND_RECV_ID_LIST then Step(c, Mute(INVALID)) else c;
            Pliable(Step(Step(c1, Provokes(c.lastMsg, b)), Mute(REP_SEND_ACK)), t + [b])
  {
    var a := c.lastMsg;
    var c1 := if b == REP_SEND_RECV_ID_LIST then Step(c, Mute(INVALID)) else c;
    assert c1.(resp := c.resp) == c;
    var c2 := Step(c1, Provokes(a, b));
    ProvokedNext(c, t, b);
    assert Step(c2, Mute(REP_SEND_ACK)) == c2.(resp := Response(REP_SEND_ACK, 0)) by { hide WakeupClient; }
  }

  lemma {:induction false} ProvokedNext(c: Ctrl, t: seq<int>, b: int)
    requires Pliable(c, t) && b > INVALID
    requires if t == [] then b == AKE_INIT else t[|t| - 1] > INVALID && Edge(t[|t| - 1], b)
    ensures var c1 := if b == REP_SEND_RECV_ID_LIST then Step(c, Mute(INVALID)) else c;
            var c2 := Step(c1, Provokes(c.lastMsg, b));
            && c2.trace == t + [b] && c2.lastMsg == b && !c2.flags.off && !c2.flags.displayPort
            && c2.flags.repeater == (b != SKE_SEND_TYPE_ID)
  {
  }

  lemma {:induction false} PathProvoked(t: seq<int>) returns (es: seq<Event>)
    requires Path(t)
    ensures Pliable(Run(es), t)
  {
    if t == [] {
      es := [Start] + [Mute(REP_SEND_ACK)];
      RunMore([], Start);
      assert [] + [Start] == [Start];
      RunMore([Start], Mute(REP_SEND_ACK));
    } else {
      var n := |t| - 1;
      assert t[n] > INVALID && (n > 0 ==> t[n - 1] > INVALID && Edge(t[n - 1], t[n]));
      es := PathProvoked(t[..n]);
      assert t[..n] + [t[n]] == t;
      var c := Run(es);
      EdgeProvoked(c, t[..n], t[n]);
      hide Run, Step, Pliable;
      if t[n] == REP_SEND_RECV_ID_LIST {
        RunMore(es, Mute(INVALID));
        es := es + [Mute(INVALID)];
      }
      RunMore(es, Provokes(c.lastMsg, t[n]));
      es := es + [Provokes(c.lastMsg, t[n])];
      RunMore(es, Mute(REP_SEND_ACK));
      es := es + [Mute(REP_SEND_ACK)];
    }
  }

  /** The announced sequences are exactly the paths: nothing else happens, and nothing is ruled out too much. */
  lemma {:induction false} AnnouncedIff(t: seq<int>)
    ensures Announced(t) <==> Path(t)
  {
    hide Run;
    if Announced(t) {
      var es :| Run(es).trace == t;
      RunKeeps(es);
    }
    if Path(t) {
      var es := PathProvoked(t);
      assert Run(es).trace == t;
    }
  }

  // ---------------------------------------------------------------- the controller object

  class HdcpCtrl {
    var lastMsg: int
    var noStoredKm: bool
    var repeater: bool
    var updateStream: bool
    var resendLc: bool
    var resendStream: bool
    var authenticated: bool
    var off: bool
    var displayPort: bool
    var resp0: int
    var respLen: nat
    ghost var trace: seq<int>

    ghost function View(): Ctrl
      reads this
    {
      Ctrl(lastMsg, trace, Response(resp0, respLen),
           Flags(noStoredKm, repeater, updateStream, resendLc, resendStream, authenticated, off, displayPort))
    }

    /** The announced messages form a path that ends in `last_msg`. */
    ghost predicate Valid()
      reads this
    {
      TraceOk(View())
    }

    constructor ()
      ensures View() == Registered && Valid()
    {
      lastMsg, noStoredKm, repeater, updateStream, resendLc, resendStream := INVALID, false, false, false, false, false;
      authenticated, off, displayPort, resp0, respLen, trace := false, true, false, 0, 0, [];
      new;
      EmptyPath();
    }

    method GetNextMessage(cmd: Cmd) returns (next: int)
      modifies this`resendStream
      ensures next == NextMessage(old(View()), cmd)
      ensures resendStream == (old(resendStream) && lastMsg != REP_STREAM_MANAGE)
    {
      match lastMsg {
        case 0 => return AKE_INIT;
        case 2 => return AKE_SEND_CERT;
        case 3 => return if noStoredKm then AKE_NO_STORED_KM else AKE_STORED_KM;
        case 4 => return AKE_SEND_H_PRIME;
        case 5 => return AKE_SEND_H_PRIME;
        case 7 => return if noStoredKm then AKE_SEND_PAIRING_INFO else LC_INIT;
        case 8 => return LC_INIT;
        case 9 => return LC_SEND_L_PRIME;
        case 10 => return if resendLc then LC_INIT else SKE_SEND_EKS;
        case 12 => return REP_SEND_ACK;
        case 16 =>
          resendStream := false;
          return REP_STREAM_READY;
        case _ =>
      }
      if lastMsg == SKE_SEND_EKS || lastMsg == SKE_SEND_TYPE_ID {
        if !repeater {
          return SKE_SEND_TYPE_ID;
        }
      } else if lastMsg == REP_STREAM_READY || lastMsg == REP_SEND_ACK {
        if !repeater {
          return INVALID;
        }
      } else {
        return -EINVAL;
      }
      return if cmd == Send then REP_STREAM_MANAGE else REP_SEND_RECV_ID_LIST;
    }

    method Wakeup(cmd: Cmd)
      modifies this`lastMsg, this`resendStream, this`trace
      ensures View() == WakeupClient(old(View()), cmd)
    {
      hide NextMessage;
      if cmd == NoCmd || cmd == Status {
        return;
      }
      var next := GetNextMessage(cmd);
      if next <= INVALID {
        lastMsg, trace := INVALID, [];
      } else {
        lastMsg, trace := next, trace + [next];
      }
    }

    method Receive(tz: Tz)
      modifies this`resp0, this`respLen
      ensures View() == Answered(old(View()), tz)
    {
      resp0, respLen := tz.resp.msg, tz.resp.len;
    }

    method UseHwKey(tz: Tz)
      modifies this
      ensures authenticated <==> old(authenticated) || tz.ok
      ensures old(authenticated) ==> View() == old(View())
      ensures trace == old(trace) && lastMsg == old(lastMsg)
      ensures View() == SetHwKey(old(View()), tz)
    {
      if authenticated {
        return;
      }
      Receive(tz);
      if tz.ok {
        authenticated := true;
        Wakeup(Status);
      }
    }

    method DoMsgSent(tz: Tz)
      modifies this
      ensures View() == MsgSent(old(View()), tz)
    {
      hide WakeupClient;
      if resp0 == SKE_SEND_TYPE_ID {
        UseHwKey(tz);
        Wakeup(LinkPoll);
      } else if resp0 == SKE_SEND_EKS {
        if repeater && !off {
          Wakeup(LinkPoll);
        } else {
          resp0, respLen := SKE_SEND_TYPE_ID, 1;
          Wakeup(Send);
        }
      } else if resp0 == REP_SEND_ACK {
        if updateStream {
          updateStream := false;
        } else {
          Wakeup(LinkPoll);
        }
      } else {
        Wakeup(Recv);
      }
    }

    method DoMsgRecvd(length: nat, sink0: int, tz: Tz, tz2: Tz)
      modifies this
      ensures View() == MsgRecvd(old(View()), length, sink0, tz, tz2)
    {
      hide WakeupClient, SetHwKey, Noted;
      if off || length == 0 {
        return;
      }
      var msg0 := if displayPort then lastMsg else sink0;
      Receive(tz);
      if !tz.ok {
        return;
      }
      if msg0 == AKE_SEND_H_PRIME && noStoredKm {
        Wakeup(Recv);
        return;
      }
      var out := if respLen == 0 then INVALID else resp0;
      if msg0 == REP_STREAM_READY && out != REP_STREAM_MANAGE {
        if resendStream {
          Receive(tz2);
          if tz2.ok {
            Wakeup(Send);
          }
        } else {
          UseHwKey(tz2);
          Wakeup(LinkPoll);
        }
        return;
      }
      Note(msg0, out, tz);
      Wakeup(Send);
    }

    method Note(msg0: int, out: int, tz: Tz)
      modifies this
      ensures View() == Noted(old(View()), msg0, out, tz)
    {
      resendLc := false;
      if msg0 == LC_SEND_L_PRIME && out == LC_INIT {
        resendLc := true;
      }
      noStoredKm := out == AKE_NO_STORED_KM;
      if out == SKE_SEND_EKS {
        repeater := tz.repeater;
        updateStream := true;
      }
    }

    method DoStream(tz: Tz)
      modifies this
      ensures View() == Stream(old(View()), tz)
    {
      hide WakeupClient;
      if off || !repeater {
        return;
      }
      if !authenticated && resp0 != REP_SEND_ACK {
        return;
      }
      Receive(tz);
      if tz.ok {
        lastMsg := REP_SEND_ACK;
        Wakeup(Send);
      }
    }

    /** The remaining work items. */
    method DoWork(e: Event)
      requires e.StartAuthWork? || e.TimeoutWork? || e.SendTypeWork? || e.ManageStreamWork? || e.CleanWork?
      modifies this
      ensures View() == Step(old(View()), e)
    {
      hide WakeupClient, MsgSent, MsgRecvd, Stream;
      match e {
        case StartAuthWork(tz) =>
          Receive(tz);
          if tz.ok { Wakeup(Send); }
        case TimeoutWork(tz) =>
          if !off {
            Receive(tz);
            if tz.ok && resp0 == LC_INIT { Wakeup(Send); }
          }
        case SendTypeWork =>
          if !off && !repeater {
            resp0, respLen := SKE_SEND_TYPE_ID, 1;
            Wakeup(Send);
          }
        case ManageStreamWork(changed) =>
          if changed && !authenticated && (lastMsg == REP_STREAM_MANAGE || lastMsg == REP_STREAM_READY) {
            resendStream := true;
          }
        case CleanWork =>
          authenticated := false;
          off := true;
      }
    }

    /** `sde_hdcp_2x_msg_sent`: the sink's answer to the message that went out is awaited. */
    method OnMsgSent(tz: Tz)
      requires Valid()
      modifies this
      ensures Valid() && InOrder(trace) && Grew(old(trace), trace)
      ensures old(resp0 == lastMsg && SinkAnswer(lastMsg) != INVALID) ==> trace == old(trace) + [SinkAnswer(old(lastMsg))]
      ensures authenticated <==> old(authenticated) || (old(resp0) == SKE_SEND_TYPE_ID && tz.ok)
      ensures trace != old(trace) <==> !(old(resp0) == REP_SEND_ACK && old(updateStream))
      ensures View() == Step(old(View()), MsgSentWork(tz))
    {
      ghost var c := View();
      DoMsgSent(tz);
      AfterStep(c, MsgSentWork(tz));
      StepAuthenticatedIff(c, MsgSentWork(tz));
      AnnouncesIff(c, MsgSentWork(tz));
      if c.resp.msg == c.lastMsg && SinkAnswer(c.lastMsg) != INVALID {
        AnswerAwaited(c, tz);
      }
      hide *;
    }

    /** `sde_hdcp_2x_msg_recvd`: if TrustZone's reply may follow the sink's message, it is announced. */
    method OnMsgRecvd(length: nat, sink0: int, tz: Tz, tz2: Tz)
      requires Valid()
      modifies this
      ensures Valid() && InOrder(trace) && Grew(old(trace), trace)
      ensures trace != old(trace) && trace != [] && trace[|trace| - 1] == SKE_SEND_EKS ==> Handshake(old(trace))
      ensures old(Replies(View(), length, sink0, tz)) ==> trace == old(trace) + [tz.resp.msg]
      ensures authenticated <==>
              (old(authenticated) ||
               (old(Processes(View(), length, sink0, tz, REP_STREAM_READY)) && !RepliesStreams(tz) && !old(resendStream) && tz2.ok))
      ensures trace != old(trace) <==> old(Announces(View(), MsgRecvdWork(length, sink0, tz, tz2)))
      ensures View() == Step(old(View()), MsgRecvdWork(length, sink0, tz, tz2))
    {
      ghost var c := View();
      hide MsgRecvd, MsgSent, WakeupClient, Noted, SetHwKey, InOrder, Handshake, TraceOk, Linked, Path, Grew, Replies;
      DoMsgRecvd(length, sink0, tz, tz2);
      AfterStep(c, MsgRecvdWork(length, sink0, tz, tz2));
      StepAuthenticatedIff(c, MsgRecvdWork(length, sink0, tz, tz2));
      AnnouncesIff(c, MsgRecvdWork(length, sink0, tz, tz2));
      KeyAfterHandshake(c.trace, trace);
      if Replies(c, length, sink0, tz) {
        ReplyAnnounced(c, length, sink0, tz, tz2);
      }
      hide *;
    }

    /** `sde_hdcp_2x_stream`: nothing, or stream management for a repeater. */
    method OnStream(tz: Tz)
      requires Valid()
      modifies this
      ensures Valid() && InOrder(trace)
      ensures trace == old(trace) || (old(repeater) && trace == old(trace) + [REP_STREAM_MANAGE])
      ensures trace != old(trace) <==> !off && repeater && (authenticated || old(resp0) == REP_SEND_ACK) && tz.ok
      ensures authenticated == old(authenticated)
      ensures View() == Step(old(View()), StreamWork(tz))
    {
      ghost var c := View();
      DoStream(tz);
      AfterStep(c, StreamWork(tz));
      AnnouncesIff(c, StreamWork(tz));
      StepAuthenticatedIff(c, StreamWork(tz));
      OffIff(c, StreamWork(tz));
      RepeaterIff(c, StreamWork(tz));
      if c.flags.repeater {
        StreamJumpKeeps(Answered(c, tz));
      }
      hide WakeupClient, TraceOk, InOrder, Grew;
    }

    /** The start command: a new sequence, of a sink that is not known as a repeater. */
    method OnStart()
      requires Valid()
      modifies this
      ensures Valid() && trace == [] && lastMsg == INVALID && !repeater && !noStoredKm && !updateStream && !off
      ensures authenticated == old(authenticated) && resendStream == old(resendStream)
      ensures View() == Step(old(View()), Start)
    {
      hide WakeupClient, MsgSent, MsgRecvd, Stream;
      noStoredKm, repeater, updateStream := false, false, false;
      lastMsg, off, trace := INVALID, false, [];
      EmptyPath();
    }

    method OnOtherWork(e: Event)
      requires Valid()
      requires e.StartAuthWork? || e.TimeoutWork? || e.SendTypeWork? || e.ManageStreamWork? || e.CleanWork?
      modifies this
      ensures Valid() && InOrder(trace) && Grew(old(trace), trace)
      ensures trace != old(trace) <==> old(Announces(View(), e))
      ensures authenticated <==> old(authenticated) && !e.CleanWork?
      ensures off <==> old(off) || e.CleanWork?
      ensures View() == Step(old(View()), e)
    {
      ghost var c := View();
      DoWork(e);
      AfterStep(c, e);
      AnnouncesIff(c, e);
      StepAuthenticatedIff(c, e);
      OffIff(c, e);
      hide Step, WakeupClient, TraceOk, InOrder, Grew, MsgSent, MsgRecvd, Stream;
    }
  }

  /** At most one message is announced by a work item, unless it resets the sequence. */
  predicate Grew(before: seq<int>, after: seq<int>) {
    after == before || after == [] || (|after| == |before| + 1 && after[..|before|] == before)
  }

  lemma {:induction false} WakeupGrows(c: Ctrl, cmd: Cmd)
    ensures Grew(c.trace, WakeupClient(c, cmd).trace)
  {
    hide NextMessage;
  }

  lemma {:induction false} StepGrows(c: Ctrl, e: Event)
    ensures Grew(c.trace, Step(c, e).trace)
  {
    hide WakeupClient, Grew;
    forall c': Ctrl, cmd ensures Grew(c'.trace, WakeupClient(c', cmd).trace) {
      WakeupGrows(c', cmd);
    }
    assert forall t :: Grew(t, t) && Grew(t, []) by { GrewTrivially(); }
  }

  lemma {:induction false} GrewTrivially()
    ensures forall t :: Grew(t, t) && Grew(t, [])
  {
  }

  /** What every work item leaves behind. */
  lemma {:induction false} AfterStep(c: Ctrl, e: Event)
    requires TraceOk(c)
    ensures var r := Step(c, e); TraceOk(r) && InOrder(r.trace) && Grew(c.trace, r.trace)
  {
    StepKeeps(c, e);
    StepGrows(c, e);
    hide Step, Grew, InOrder, Path;
    PathInOrder(Step(c, e).trace);
  }

  lemma {:induction false} AnswerAwaited(c: Ctrl, tz: Tz)
    requires c.resp.msg == c.lastMsg && SinkAnswer(c.lastMsg) != INVALID
    ensures Step(c, MsgSentWork(tz)).trace == c.trace + [SinkAnswer(c.lastMsg)]
  {
  }

  lemma {:induction false} KeyAfterHandshake(before: seq<int>, after: seq<int>)
    requires InOrder(after) && Grew(before, after)
    ensures after != before && after != [] && after[|after| - 1] == SKE_SEND_EKS ==> Handshake(before)
  {
    hide Handshake;
    if after != before && after != [] && after[|after| - 1] == SKE_SEND_EKS {
      assert after[..|after| - 1] == before;
    }
  }
}
