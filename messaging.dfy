/**
 * The watch side of the location request protocol: one request
 * outstanding at a time, resends on a send timeout during a 20-second
 * window after the request was submitted, and reports of replies and
 * failures to the callbacks given at init.
 *
 * The platform's outbox results and the clock are inputs. What the module
 * does to the outside world (outbox calls, callback invocations) is
 * recorded as a sequence of `Effect` values.
 */
module Messaging {
  import opened CStd

  /** Seconds after submission during which a send timeout is retried. */
  const RetryTimeout: int := 20

  /** Size of the buffer that receives the phone's failure message. */
  const ErrMessageSize: int := 64

  /** Dictionary keys shared with the phone. */
  const MsgKeyGetLatLong: int := 0

  type I32 = x: int | -0x8000_0000 <= x < 0x8000_0000
  type U32 = x: int | 0 <= x < 0x1_0000_0000

  /** A C string's characters before its terminator. */
  type CStr = s: string | '\0' !in s

  /**
   * The platform's AppMessageResult. The named results are kept by name and
   * their numeric values are not part of this model; OtherResult stands for
   * a code outside the named ones, which the platform passes on unchanged.
   */
  datatype AppMessageResult =
    | AppMsgOk | SendTimeout | SendRejected | NotConnected | AppNotRunning | InvalidArgs
    | Busy | BufferOverflow | AlreadyReleased | OutOfMemory | Closed | InternalError
    | OtherResult(code: int)

  datatype FailureSource = FailSrcAppMsg | FailSrcPhone

  /** The errCode handed to the failure callback: a number, or the AppMessageResult itself. */
  datatype ErrorCode = Numeric(n: int) | ResultCode(reason: AppMessageResult)

  /** What the module does that the outside world sees. */
  datatype Effect =
    | OutboxBegin
    | WriteTuplet(key: int, value: int)
    | WriteEnd
    | OutboxSend
    | CoordsReceived(latitude: real, longitude: real, utcOffset: int)
    /** message is the C string the callback reads; None when it has no terminator in its buffer. */
    | CoordsFailed(source: FailureSource, code: ErrorCode, message: Option<string>)

  /**
   * What the platform answers during one send attempt: the result of
   * app_message_outbox_begin, whether the iterator it gave is NULL, the
   * result of dict_write_tuplet, the size dict_write_end returns and the
   * result of app_message_outbox_send.
   */
  datatype Outbox = Outbox(begin: AppMessageResult, iterNull: bool, tupletOk: bool,
                           endSize: int, send: AppMessageResult)

  /** The tuples found in a received dictionary; None is a key that is absent. */
  datatype Inbox = Inbox(latitude: Option<I32>, longitude: Option<I32>, utcOffset: Option<I32>,
                         failCode: Option<U32>, failMessage: Option<CStr>)

  /**
   * The module's statics: the outstanding flag, the submission time and
   * whether a success callback is registered.
   */
  datatype MsgState = MsgState(outstanding: bool, submitted: int, hasRecvdCallback: bool)

  /** Program start: everything zero. */
  const Initial: MsgState := MsgState(false, 0, false)

  // ---------------------------------------------------------------------
  // One send attempt.

  /** app_msg_RequestLatLong_internal: whether it reports success, and the calls it makes. */
  function SendAttempt(o: Outbox): (bool, seq<Effect>)
  {
    if o.begin != AppMsgOk || o.iterNull then (false, [OutboxBegin])
    else
      var written := [OutboxBegin, WriteTuplet(MsgKeyGetLatLong, 1), WriteEnd];
      if o.tupletOk && o.endSize != 0 then (o.send == AppMsgOk, written + [OutboxSend])
      else (false, written)
  }

  /**
   * The outbox is sent only when beginning, writing the tuplet and ending
   * the dictionary all succeeded; the dictionary is ended even after the
   * tuplet failed; success means the send itself succeeded too.
   */
  lemma SendAttemptDiscipline(o: Outbox)
    ensures var (ok, effects) := SendAttempt(o);
            effects[0] == OutboxBegin &&
            (OutboxSend in effects <==> o.begin == AppMsgOk && !o.iterNull && o.tupletOk && o.endSize != 0) &&
            (WriteEnd in effects <==> o.begin == AppMsgOk && !o.iterNull) &&
            (ok <==> o.begin == AppMsgOk && !o.iterNull && o.tupletOk && o.endSize != 0 && o.send == AppMsgOk) &&
            (forall i | 0 <= i < |effects| :: effects[i].OutboxBegin? <==> i == 0)
  {
  }

  // ---------------------------------------------------------------------
  // Requests.

  /** app_msg_RequestLatLong at time `now`: the new state, the result and the calls made. */
  function Request(s: MsgState, now: int, o: Outbox): (MsgState, bool, seq<Effect>)
  {
    if s.outstanding then (s, true, [])
    else
      var (ok, effects) := SendAttempt(o);
      (s.(outstanding := true, submitted := now), ok, effects)
  }

  /**
   * A request while one is outstanding succeeds without sending and keeps
   * the original time. Otherwise the request is outstanding from `now`,
   * whether or not the send worked.
   */
  lemma RequestSuppressesDuplicates(s: MsgState, now: int, o: Outbox)
    ensures var (s', ok, effects) := Request(s, now, o);
            (s.outstanding ==> s' == s && ok && effects == []) &&
            (!s.outstanding ==> s'.outstanding && s'.submitted == now && s'.hasRecvdCallback == s.hasRecvdCallback
                                && (ok, effects) == SendAttempt(o))
  {
  }

  /** Two requests in a row send at most once, and the second leaves everything as the first left it. */
  lemma SecondRequestIsSilent(s: MsgState, now: int, now': int, o: Outbox, o': Outbox)
    ensures var (s1, _, _) := Request(s, now, o);
            var (s2, ok2, effects2) := Request(s1, now', o');
            s2 == s1 && ok2 && effects2 == []
  {
  }

  // ---------------------------------------------------------------------
  // Received messages.

  /** Scaled integer degrees, as sent by the phone, back to degrees. */
  function Unscale(v: I32): (degrees: real)
    ensures degrees * 1000000.0 == v as real
  {
    (v as real) / 1000000.0
  }

  /** The uint32 fail code passed on as the callback's int32_t: wraps above 2^31 - 1. */
  function AsInt32(u: U32): (i: I32)
    ensures (i - u) % 0x1_0000_0000 == 0
    ensures u < 0x8000_0000 ==> i == u
  {
    if u < 0x8000_0000 then u else u - 0x1_0000_0000
  }

  /** in_received_handler: the new state and the callbacks invoked. */
  function Received(s: MsgState, inbox: Inbox): (MsgState, seq<Effect>)
  {
    if inbox.latitude.Some? && inbox.longitude.Some? && inbox.utcOffset.Some? then
      var effects := if s.hasRecvdCallback
        then [CoordsReceived(Unscale(inbox.latitude.value), Unscale(inbox.longitude.value), inbox.utcOffset.value)]
        else [];
      (s.(outstanding := false), effects)
    else if inbox.failCode.Some? && inbox.failMessage.Some? then
      (s, [CoordsFailed(FailSrcPhone, Numeric(AsInt32(inbox.failCode.value)),
                        CStringOf(StrncpyBuffer(inbox.failMessage.value)))])
    else (s, [])
  }

  /**
   * A reply with all three location values ends the request and reaches the
   * success callback, if there is one, in degrees; a failure reply is
   * relayed as coming from the phone and leaves the request outstanding;
   * anything else is ignored.
   */
  lemma ReceivedOutcome(s: MsgState, inbox: Inbox)
    ensures var (s', effects) := Received(s, inbox);
            var complete := inbox.latitude.Some? && inbox.longitude.Some? && inbox.utcOffset.Some?;
            s'.submitted == s.submitted && s'.hasRecvdCallback == s.hasRecvdCallback &&
            (complete ==> !s'.outstanding) &&
            (complete && s.hasRecvdCallback ==>
               effects == [CoordsReceived((inbox.latitude.value as real) / 1000000.0,
                                          (inbox.longitude.value as real) / 1000000.0,
                                          inbox.utcOffset.value)]) &&
            (complete && !s.hasRecvdCallback ==> effects == []) &&
            (!complete ==> s'.outstanding == s.outstanding) &&
            (!complete && inbox.failCode.Some? && inbox.failMessage.Some? ==>
               var msg: string := inbox.failMessage.value;
               effects == [CoordsFailed(FailSrcPhone, Numeric(AsInt32(inbox.failCode.value)),
                                        if |msg| < ErrMessageSize then Some(msg) else None)]) &&
            (!complete && (inbox.failCode.None? || inbox.failMessage.None?) ==> effects == [])
  {
    if inbox.failMessage.Some? {
      var msg := inbox.failMessage.value;
      if |msg| < ErrMessageSize {
        StrncpyShortMessage(msg);
      } else {
        StrncpyLeavesUnterminated(msg);
      }
    }
  }

  /**
   * in_received_handler with the message copied so that the buffer keeps
   * its terminator. Everything but the message of a failure reply is as in
   * Received.
   */
  function ReceivedCorrected(s: MsgState, inbox: Inbox): (MsgState, seq<Effect>)
  {
    var complete := inbox.latitude.Some? && inbox.longitude.Some? && inbox.utcOffset.Some?;
    if !complete && inbox.failCode.Some? && inbox.failMessage.Some? then
      (s, [CoordsFailed(FailSrcPhone, Numeric(AsInt32(inbox.failCode.value)),
                        CStringOf(BoundedCopy(inbox.failMessage.value)))])
    else Received(s, inbox)
  }

  /**
   * With the corrected copy a failure reply always delivers a message: the
   * whole of one shorter than the buffer, else its first 63 characters. It
   * differs from the code as written only for messages of 64 characters or
   * more.
   */
  lemma ReceivedCorrectedDelivers(s: MsgState, inbox: Inbox)
    ensures var complete := inbox.latitude.Some? && inbox.longitude.Some? && inbox.utcOffset.Some?;
            (!complete && inbox.failCode.Some? && inbox.failMessage.Some? ==>
               var msg: string := inbox.failMessage.value;
               var kept := if |msg| < ErrMessageSize then msg else msg[..ErrMessageSize - 1];
               ReceivedCorrected(s, inbox) ==
                 (s, [CoordsFailed(FailSrcPhone, Numeric(AsInt32(inbox.failCode.value)), Some(kept))])) &&
            (ReceivedCorrected(s, inbox) == Received(s, inbox) <==>
               complete || inbox.failCode.None? || inbox.failMessage.None? || |inbox.failMessage.value| < ErrMessageSize)
  {
    if inbox.failMessage.Some? {
      var msg := inbox.failMessage.value;
      BoundedCopyDelivers(msg);
      if |msg| < ErrMessageSize {
        StrncpyShortMessage(msg);
      } else {
        StrncpyLeavesUnterminated(msg);
      }
    }
  }

  // ---------------------------------------------------------------------
  // The failure message buffer.

  /** strncpy into the 64-byte buffer: the message's first 64 characters, padded with NULs. */
  function StrncpyBuffer(msg: CStr): (buf: seq<char>)
    ensures |buf| == ErrMessageSize
  {
    var n := if |msg| < ErrMessageSize then |msg| else ErrMessageSize;
    msg[..n] + seq(ErrMessageSize - n, _ => '\0')
  }

  /** A copy that keeps room for the terminator: at most 63 characters, then NULs. */
  function BoundedCopy(msg: CStr): (buf: seq<char>)
    ensures |buf| == ErrMessageSize
  {
    var n := if |msg| < ErrMessageSize then |msg| else ErrMessageSize - 1;
    msg[..n] + seq(ErrMessageSize - n, _ => '\0')
  }

  /** A prefix of a message followed by at least one NUL reads as that prefix. */
  lemma DeliveredPrefix(msg: CStr, n: nat, pad: nat)
    requires n <= |msg| && pad > 0
    ensures CStringOf(msg[..n] + seq(pad, _ => '\0')) == Some(msg[..n])
  {
    var buf := msg[..n] + seq(pad, _ => '\0');
    assert forall j | 0 <= j < n :: buf[j] == msg[j] && msg[j] in msg;
    NulFromFirst(buf, 0, n);
    assert buf[..n] == msg[..n];
  }

  /**
   * As written, a phone message of 64 characters or more leaves the buffer
   * without a terminator: what the callback reads is not the message.
   */
  lemma StrncpyLeavesUnterminated(msg: CStr)
    requires |msg| >= ErrMessageSize
    ensures CStringOf(StrncpyBuffer(msg)) == None
  {
    var buf := StrncpyBuffer(msg);
    assert buf == msg[..ErrMessageSize];
    assert forall j | 0 <= j < |buf| :: buf[j] == msg[j] && msg[j] in msg;
  }

  /** Shorter messages arrive whole even as written. */
  lemma StrncpyShortMessage(msg: CStr)
    requires |msg| < ErrMessageSize
    ensures var whole: string := msg; CStringOf(StrncpyBuffer(msg)) == Some(whole)
  {
    DeliveredPrefix(msg, |msg|, ErrMessageSize - |msg|);
    assert msg[..|msg|] == msg;
  }

  /** The bounded copy always delivers a terminated message: the whole message, or its first 63 characters. */
  lemma BoundedCopyDelivers(msg: CStr)
    ensures var kept: string := if |msg| < ErrMessageSize then msg else msg[..ErrMessageSize - 1];
            CStringOf(BoundedCopy(msg)) == Some(kept)
  {
    var n := if |msg| < ErrMessageSize then |msg| else ErrMessageSize - 1;
    DeliveredPrefix(msg, n, ErrMessageSize - n);
    assert |msg| < ErrMessageSize ==> msg[..n] == msg;
  }

  // ---------------------------------------------------------------------
  // Send failures.

  /** The text reported for a send failure other than a retried timeout. */
  function ReasonText(reason: AppMessageResult): string
  {
    match reason
    case SendTimeout => "send timeout"
    case SendRejected => "send rejected"
    case NotConnected => "not connected"
    case AppNotRunning => "app not running"
    case InvalidArgs => "invalid args"
    case Busy => "comms busy"
    case BufferOverflow => "rx buffer overflow"
    case AlreadyReleased => "resource already released"
    case OutOfMemory => "out of memory"
    case Closed => "comms closed"
    case InternalError => "internal OS error"
    case AppMsgOk => "unknown, see int code"
    case OtherResult(_) => "unknown, see int code"
  }

  /** The reason a text names, for the texts of the named failure reasons. */
  function ReasonFromText(text: string): Option<AppMessageResult>
  {
    if text == "send timeout" then Some(SendTimeout)
    else if text == "send rejected" then Some(SendRejected)
    else if text == "not connected" then Some(NotConnected)
    else if text == "app not running" then Some(AppNotRunning)
    else if text == "invalid args" then Some(InvalidArgs)
    else if text == "comms busy" then Some(Busy)
    else if text == "rx buffer overflow" then Some(BufferOverflow)
    else if text == "resource already released" then Some(AlreadyReleased)
    else if text == "out of memory" then Some(OutOfMemory)
    else if text == "comms closed" then Some(Closed)
    else if text == "internal OS error" then Some(InternalError)
    else None
  }

  predicate NamedFailure(reason: AppMessageResult)
  {
    !reason.AppMsgOk? && !reason.OtherResult?
  }

  /**
   * Each named failure reason has its own text, from which it can be
   * recovered; every other value shares the "unknown" text.
   */
  lemma ReasonTextRoundTrip(reason: AppMessageResult)
    ensures NamedFailure(reason) ==> ReasonFromText(ReasonText(reason)) == Some(reason)
    ensures !NamedFailure(reason) ==> ReasonText(reason) == "unknown, see int code"
                                      && ReasonFromText(ReasonText(reason)) == None
  {
    match reason
    case SendTimeout =>
    case SendRejected =>
      assert "send rejected" != "send timeout";
    case NotConnected =>
      assert "not connected" != "send timeout";
    case AppNotRunning =>
    case InvalidArgs =>
    case Busy =>
    case BufferOverflow =>
    case AlreadyReleased =>
    case OutOfMemory =>
    case Closed =>
      assert "comms closed" != "comms busy";
    case InternalError =>
    case AppMsgOk =>
    case OtherResult(_) =>
  }

  /** The distinct reasons carry distinct texts. */
  lemma ReasonTextInjective(r1: AppMessageResult, r2: AppMessageResult)
    requires NamedFailure(r1) && NamedFailure(r2) && ReasonText(r1) == ReasonText(r2)
    ensures r1 == r2
  {
    ReasonTextRoundTrip(r1);
    ReasonTextRoundTrip(r2);
  }

  const RetryTimeoutText: string := "Send retry timeout"

  /** out_failed_handler at time `now`: the new state and the effects. */
  function OutFailed(s: MsgState, reason: AppMessageResult, now: int, o: Outbox): (MsgState, seq<Effect>)
  {
    if !s.outstanding then (s, [])
    else if reason == SendTimeout then
      if now - s.submitted < RetryTimeout then (s, SendAttempt(o).1)
      else (s.(outstanding := false), [CoordsFailed(FailSrcAppMsg, Numeric(1), Some(RetryTimeoutText))])
    else (s, [CoordsFailed(FailSrcAppMsg, ResultCode(reason), Some(ReasonText(reason)))])
  }

  /**
   * A failure with no request outstanding is ignored. A send timeout within
   * 20 s of submission resends and keeps the request; at or after 20 s it
   * ends the request with the retry-timeout report. Any other reason is
   * reported with its text and keeps the request outstanding. The
   * submission time is never changed.
   */
  lemma OutFailedOutcome(s: MsgState, reason: AppMessageResult, now: int, o: Outbox)
    ensures var (s', effects) := OutFailed(s, reason, now, o);
            s'.submitted == s.submitted && s'.hasRecvdCallback == s.hasRecvdCallback &&
            (!s.outstanding ==> s' == s && effects == []) &&
            (s.outstanding && reason == SendTimeout && now - s.submitted < RetryTimeout ==>
               s' == s && effects == SendAttempt(o).1) &&
            (s.outstanding && reason == SendTimeout && now - s.submitted >= RetryTimeout ==>
               !s'.outstanding && effects == [CoordsFailed(FailSrcAppMsg, Numeric(1), Some("Send retry timeout"))]) &&
            (s.outstanding && reason != SendTimeout ==>
               s' == s && effects == [CoordsFailed(FailSrcAppMsg, ResultCode(reason), Some(ReasonText(reason)))])
  {
  }

  // ---------------------------------------------------------------------
  // A run of send timeouts.

  /** A send timeout reported at each of the given times, one after another. */
  function Timeouts(s: MsgState, times: seq<int>, outboxes: seq<Outbox>): (MsgState, seq<Effect>)
    requires |outboxes| == |times|
    decreases |times|
  {
    if times == [] then (s, [])
    else
      var (s1, e1) := OutFailed(s, SendTimeout, times[0], outboxes[0]);
      var (s2, e2) := Timeouts(s1, times[1..], outboxes[1..]);
      (s2, e1 + e2)
  }

  function CountFailures(effects: seq<Effect>): nat
  {
    if effects == [] then 0
    else (if effects[0].CoordsFailed? then 1 else 0) + CountFailures(effects[1..])
  }

  lemma {:induction false} CountFailuresAppend(a: seq<Effect>, b: seq<Effect>)
    ensures CountFailures(a + b) == CountFailures(a) + CountFailures(b)
  {
    if a == [] {
      assert a + b == b;
    } else {
      assert (a + b)[0] == a[0];
      assert (a + b)[1..] == a[1..] + b;
      CountFailuresAppend(a[1..], b);
    }
  }

  lemma {:induction false} NoFailuresCounted(effects: seq<Effect>)
    requires forall i | 0 <= i < |effects| :: !effects[i].CoordsFailed?
    ensures CountFailures(effects) == 0
  {
    if effects != [] {
      assert !effects[0].CoordsFailed?;
      NoFailuresCounted(effects[1..]);
    }
  }

  /** A resend reports nothing to the failure callback. */
  lemma SendAttemptReportsNothing(o: Outbox)
    ensures CountFailures(SendAttempt(o).1) == 0
  {
    NoFailuresCounted(SendAttempt(o).1);
  }

  /**
   * However the timeouts fall, the request stays outstanding exactly as
   * long as every timeout came within 20 s of the original submission, and
   * at most one failure (the retry-timeout report) reaches the callback:
   * one exactly when some timeout came at or after 20 s.
   */
  lemma {:induction false} TimeoutsGiveUpOnce(s: MsgState, times: seq<int>, outboxes: seq<Outbox>)
    requires |outboxes| == |times|
    decreases |times|
    ensures var (s', effects) := Timeouts(s, times, outboxes);
            var late := exists i | 0 <= i < |times| :: times[i] - s.submitted >= RetryTimeout;
            s'.submitted == s.submitted && s'.hasRecvdCallback == s.hasRecvdCallback &&
            (s'.outstanding <==> s.outstanding && !late) &&
            CountFailures(effects) == (if s.outstanding && late then 1 else 0)
  {
    if times != [] {
      var (s1, e1) := OutFailed(s, SendTimeout, times[0], outboxes[0]);
      var (s2, e2) := Timeouts(s1, times[1..], outboxes[1..]);
      TimeoutsGiveUpOnce(s1, times[1..], outboxes[1..]);
      CountFailuresAppend(e1, e2);
      SendAttemptReportsNothing(outboxes[0]);
      var late := exists i | 0 <= i < |times| :: times[i] - s.submitted >= RetryTimeout;
      var lateRest := exists i | 0 <= i < |times[1..]| :: times[1..][i] - s.submitted >= RetryTimeout;
      assert late <==> times[0] - s.submitted >= RetryTimeout || lateRest by {
        if lateRest {
          var i :| 0 <= i < |times[1..]| && times[1..][i] - s.submitted >= RetryTimeout;
          assert times[i + 1] - s.submitted >= RetryTimeout;
        }
        if late {
          var i :| 0 <= i < |times| && times[i] - s.submitted >= RetryTimeout;
          if i > 0 {
            assert times[1..][i - 1] == times[i];
          }
        }
      }
      assert CountFailures([CoordsFailed(FailSrcAppMsg, Numeric(1), Some(RetryTimeoutText))]) == 1;
    }
  }

  // ---------------------------------------------------------------------
  // Init and deinit.

  /** app_msg_init: callbacks registered and no request outstanding. */
  function AfterInit(s: MsgState, hasRecvdCallback: bool): MsgState
  {
    s.(outstanding := false, hasRecvdCallback := hasRecvdCallback)
  }

  /** app_msg_deinit: success callback removed and no request outstanding. */
  function AfterDeinit(s: MsgState): MsgState
  {
    s.(outstanding := false, hasRecvdCallback := false)
  }

  /** After init a request always goes out; after deinit a complete reply reaches no callback. */
  lemma InitDeinitReset(s: MsgState, hasRecvdCallback: bool, now: int, o: Outbox, inbox: Inbox)
    ensures !AfterInit(s, hasRecvdCallback).outstanding && !AfterDeinit(s).outstanding
    ensures Request(AfterInit(s, hasRecvdCallback), now, o).2 == SendAttempt(o).1
    ensures Received(AfterDeinit(s), inbox).1 == [] || Received(AfterDeinit(s), inbox).1[0].CoordsFailed?
  {
  }

  // ---------------------------------------------------------------------
  // The module's statics, with a log of effects.

  class AppMessaging {
    var outstanding: bool
    var submitted: int
    var hasRecvdCallback: bool
    /** Everything done to the outside world so far, oldest first. */
    var log: seq<Effect>

    function State(): MsgState
      reads this
    {
      MsgState(outstanding, submitted, hasRecvdCallback)
    }

    constructor ()
      ensures State() == Initial && log == []
    {
      outstanding, submitted, hasRecvdCallback, log := false, 0, false, [];
    }

    method Init(hasRecvdCallback: bool)
      modifies this
      ensures State() == AfterInit(old(State()), hasRecvdCallback) && log == old(log)
    {
      this.hasRecvdCallback := hasRecvdCallback;
      outstanding := false;
    }

    method Deinit()
      modifies this
      ensures State() == AfterDeinit(old(State())) && log == old(log)
    {
      hasRecvdCallback := false;
      outstanding := false;
    }

    /** app_msg_RequestLatLong_internal. */
    method SendInternal(o: Outbox) returns (ok: bool)
      modifies this`log
      ensures (ok, log) == (SendAttempt(o).0, old(log) + SendAttempt(o).1)
    {
      var calls := [OutboxBegin];
      ok := true;
      if o.begin != AppMsgOk || o.iterNull {
        ok := false;
      } else {
        calls := calls + [WriteTuplet(MsgKeyGetLatLong, 1)];
        if !o.tupletOk {
          ok := false;
        }
        calls := calls + [WriteEnd];
        assert calls == [OutboxBegin, WriteTuplet(MsgKeyGetLatLong, 1), WriteEnd];
        if o.endSize == 0 {
          ok := false;
        }
        if ok {
          calls := calls + [OutboxSend];
          if o.send != AppMsgOk {
            ok := false;
          }
        }
      }
      log := log + calls;
    }

    method RequestLatLong(now: int, o: Outbox) returns (ok: bool)
      modifies this
      ensures var (s', ok', effects) := Request(old(State()), now, o);
              State() == s' && ok == ok' && log == old(log) + effects
    {
      if outstanding {
        return true;
      }
      outstanding := true;
      submitted := now;
      ok := SendInternal(o);
    }

    method InReceived(inbox: Inbox)
      modifies this
      ensures var (s', effects) := Received(old(State()), inbox);
              State() == s' && log == old(log) + effects
    {
      if inbox.latitude.Some? && inbox.longitude.Some? && inbox.utcOffset.Some? {
        outstanding := false;
        if hasRecvdCallback {
          var fLat := (inbox.latitude.value as real) / 1000000.0;
          var fLong := (inbox.longitude.value as real) / 1000000.0;
          log := log + [CoordsReceived(fLat, fLong, inbox.utcOffset.value)];
        }
      } else if inbox.failCode.Some? && inbox.failMessage.Some? {
        var achErrMessage := StrncpyBuffer(inbox.failMessage.value);
        log := log + [CoordsFailed(FailSrcPhone, Numeric(AsInt32(inbox.failCode.value)), CStringOf(achErrMessage))];
      }
    }

    method OutFailedHandler(reason: AppMessageResult, now: int, o: Outbox)
      modifies this
      ensures var (s', effects) := OutFailed(old(State()), reason, now, o);
              State() == s' && log == old(log) + effects
    {
      if outstanding {
        if reason == SendTimeout {
          if now - submitted < RetryTimeout {
            var _ := SendInternal(o);
          } else {
            outstanding := false;
            log := log + [CoordsFailed(FailSrcAppMsg, Numeric(1), Some(RetryTimeoutText))];
          }
        } else {
          var pszReason := ReasonText(reason);
          log := log + [CoordsFailed(FailSrcAppMsg, ResultCode(reason), Some(pszReason))];
        }
      }
    }
  }
}
