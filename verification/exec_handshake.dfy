/**
 The start-up handshake between the supervisor and a freshly forked child. The child writes
 an eight-byte record into a pipe when one of its system calls fails; a successful `execv`
 closes the pipe without a byte. Both ends retry interrupted calls and cope with partial
 transfers, and the parent gives up after a deadline.

 The operating system is a script: one list of outcomes for the child's `write` calls, one
 for the parent's `poll` and `read` calls. A script that ends early stands for a child that
 was killed, and for a parent whose deadline has passed.
 */
module ExecHandshake {
  import opened Common
  import opened StartRecord
  import PM = ProcessModel

  /** The number Linux gives it. */
  const EPROTO: int32 := 71

  // The child

  /** How one of the child's system calls ends; `Killed` that it never does. */
  datatype Call = Done | Failed(errno: int32) | Killed

  datatype ChildCalls = ChildCalls(setpgid: Call, chdir: Call, openNull: Call, dupOut: Call, dupErr: Call, execv: Call)

  datatype WriteOutcome = Wrote(k: nat) | WriteInterrupted | WriteFailed

  /** Whether and why the child gives up: at its first call that does not succeed. */
  datatype Fate = Execs | Dies | Reports(error: ChildStartError)

  function CallsInOrder(c: ChildCalls): seq<(Stage, Call)> {
    [(CreateProcessGroup, c.setpgid), (ChangeDirectory, c.chdir), (OpenNullDevice, c.openNull),
     (RedirectStandardOutput, c.dupOut), (RedirectStandardError, c.dupErr), (Execute, c.execv)]
  }

  function FirstFailure(calls: seq<(Stage, Call)>): Fate {
    if calls == [] then Execs
    else
      match calls[0].1
      case Done => FirstFailure(calls[1..])
      case Failed(errno) => Reports(ChildStartError(calls[0].0, errno))
      case Killed => Dies
  }

  function ChildFate(c: ChildCalls): Fate { FirstFailure(CallsInOrder(c)) }

  lemma {:induction false} FateFrom(calls: seq<(Stage, Call)>, i: nat)
    requires i <= |calls| && forall j :: 0 <= j < i ==> calls[j].1.Done?
    ensures FirstFailure(calls) == FirstFailure(calls[i..])
  {
    if i == 0 {
      assert calls[0..] == calls;
    } else {
      FateFrom(calls, i - 1);
      assert calls[i - 1..][1..] == calls[i..];
    }
  }

  /** The first `i` calls succeed. */
  predicate DoneBefore(c: ChildCalls, i: nat) {
    && (i > 0 ==> c.setpgid.Done?) && (i > 1 ==> c.chdir.Done?) && (i > 2 ==> c.openNull.Done?)
    && (i > 3 ==> c.dupOut.Done?) && (i > 4 ==> c.dupErr.Done?) && (i > 5 ==> c.execv.Done?)
  }

  lemma StopsAt(c: ChildCalls, i: nat)
    requires i < 6 && DoneBefore(c, i)
    requires CallsInOrder(c)[i].1 != Done
    ensures var call := CallsInOrder(c)[i];
      ChildFate(c) == if call.1.Killed? then Dies else Reports(ChildStartError(call.0, call.1.errno))
  {
    SuccessesFirst(c, i);
    FateFrom(CallsInOrder(c), i);
  }

  lemma SuccessesFirst(c: ChildCalls, i: nat)
    requires i <= 6 && DoneBefore(c, i)
    ensures forall j :: 0 <= j < i ==> CallsInOrder(c)[j].1.Done?
  {
    var calls := CallsInOrder(c);
    assert calls[0].1 == c.setpgid && calls[1].1 == c.chdir && calls[2].1 == c.openNull;
    assert calls[3].1 == c.dupOut && calls[4].1 == c.dupErr && calls[5].1 == c.execv;
  }

  /** The calls in the order in which the child makes them, and the stage that each reports. */
  lemma FateIs(c: ChildCalls)
    ensures ChildFate(c).Execs? <==>
      c.setpgid.Done? && c.chdir.Done? && c.openNull.Done? && c.dupOut.Done? && c.dupErr.Done? && c.execv.Done?
    ensures !c.setpgid.Done? ==> ChildFate(c) == GivesUp(CreateProcessGroup, c.setpgid)
    ensures DoneBefore(c, 1) && !c.chdir.Done? ==> ChildFate(c) == GivesUp(ChangeDirectory, c.chdir)
    ensures DoneBefore(c, 2) && !c.openNull.Done? ==> ChildFate(c) == GivesUp(OpenNullDevice, c.openNull)
    ensures DoneBefore(c, 3) && !c.dupOut.Done? ==> ChildFate(c) == GivesUp(RedirectStandardOutput, c.dupOut)
    ensures DoneBefore(c, 4) && !c.dupErr.Done? ==> ChildFate(c) == GivesUp(RedirectStandardError, c.dupErr)
    ensures DoneBefore(c, 5) && !c.execv.Done? ==> ChildFate(c) == GivesUp(Execute, c.execv)
  {
    if !c.setpgid.Done? { StopsAt(c, 0); }
    else if !c.chdir.Done? { StopsAt(c, 1); }
    else if !c.openNull.Done? { StopsAt(c, 2); }
    else if !c.dupOut.Done? { StopsAt(c, 3); }
    else if !c.dupErr.Done? { StopsAt(c, 4); }
    else if !c.execv.Done? { StopsAt(c, 5); }
    else {
      SuccessesFirst(c, 6);
      FateFrom(CallsInOrder(c), 6);
    }
  }

  function GivesUp(stage: Stage, call: Call): Fate
    requires !call.Done?
  {
    if call.Killed? then Dies else Reports(ChildStartError(stage, call.errno))
  }

  /** How much of `remaining` bytes the child gets into the pipe. A `write` never transfers
      more than it was given; one that transfers nothing ends the report. */
  function Delivered(writes: seq<WriteOutcome>, remaining: nat): (n: nat)
    ensures n <= remaining
  {
    if remaining == 0 || writes == [] then 0
    else
      match writes[0]
      case Wrote(k) =>
        if k == 0 then 0
        else if k >= remaining then remaining
        else k + Delivered(writes[1..], remaining - k)
      case WriteInterrupted => Delivered(writes[1..], remaining)
      case WriteFailed => 0
  }

  /** The bytes that the writes take before one of them fails or takes none. */
  function Taken(writes: seq<WriteOutcome>): nat {
    if writes == [] then 0
    else
      match writes[0]
      case Wrote(k) => if k == 0 then 0 else k + Taken(writes[1..])
      case WriteInterrupted => Taken(writes[1..])
      case WriteFailed => 0
  }

  /** Nothing that could be sent is held back, and nothing beyond the record is sent. */
  lemma {:induction false} DeliveredIs(writes: seq<WriteOutcome>, remaining: nat)
    ensures Delivered(writes, remaining) == if Taken(writes) < remaining then Taken(writes) else remaining
  {
    if remaining > 0 && writes != [] {
      match writes[0]
      case Wrote(k) => if 0 < k < remaining { DeliveredIs(writes[1..], remaining - k); }
      case WriteInterrupted => DeliveredIs(writes[1..], remaining);
      case WriteFailed =>
    }
  }

  function Wire(c: ChildCalls, writes: seq<WriteOutcome>): seq<byte> {
    match ChildFate(c)
    case Reports(error) => Encode(error)[..Delivered(writes, RECORD_SIZE)]
    case _ => []
  }

  method ReportChildStartError(error: ChildStartError, writes: seq<WriteOutcome>) returns (sent: seq<byte>)
    ensures sent == Encode(error)[..Delivered(writes, RECORD_SIZE)]
  {
    var message := Encode(error);
    var data, remaining := 0, RECORD_SIZE;
    sent := [];
    var i := 0;
    while remaining > 0 && i < |writes|
      invariant 0 <= i <= |writes| && 0 <= data <= RECORD_SIZE && remaining == RECORD_SIZE - data
      invariant sent == message[..data]
      invariant Delivered(writes, RECORD_SIZE) == data + Delivered(writes[i..], remaining)
      decreases |writes| - i
    {
      var outcome := writes[i];
      assert writes[i..][1..] == writes[i + 1..];
      i := i + 1;
      if outcome.Wrote? && outcome.k > 0 {
        var written := if outcome.k < remaining then outcome.k else remaining;
        sent := sent + message[data..data + written];
        data := data + written;
        remaining := remaining - written;
        continue;
      }
      if outcome.WriteInterrupted? {
        continue;
      }
      break;
    }
  }

  /** What becomes of the child at call `i`, the first that did not succeed. */
  method GiveUp(ghost c: ChildCalls, ghost i: nat, stage: Stage, call: Call, writes: seq<WriteOutcome>)
    returns (wire: seq<byte>)
    requires i < 6 && DoneBefore(c, i) && CallsInOrder(c)[i] == (stage, call) && call != Done
    ensures !ChildFate(c).Execs? && wire == Wire(c, writes)
  {
    StopsAt(c, i);
    if call.Killed? {
      return [];
    }
    wire := ReportChildStartError(ChildStartError(stage, call.errno), writes);
  }

  /** The child between `fork` and `execv`. */
  method RunChild(c: ChildCalls, writes: seq<WriteOutcome>) returns (execed: bool, wire: seq<byte>)
    ensures execed <==> ChildFate(c).Execs?
    ensures wire == Wire(c, writes)
  {
    execed, wire := false, [];
    if c.setpgid != Done {
      wire := GiveUp(c, 0, CreateProcessGroup, c.setpgid, writes);
      return;
    }
    if c.chdir != Done {
      wire := GiveUp(c, 1, ChangeDirectory, c.chdir, writes);
      return;
    }
    if c.openNull != Done {
      wire := GiveUp(c, 2, OpenNullDevice, c.openNull, writes);
      return;
    }
    if c.dupOut != Done {
      wire := GiveUp(c, 3, RedirectStandardOutput, c.dupOut, writes);
      return;
    }
    if c.dupErr != Done {
      wire := GiveUp(c, 4, RedirectStandardError, c.dupErr, writes);
      return;
    }
    if c.execv != Done {
      wire := GiveUp(c, 5, Execute, c.execv, writes);
      return;
    }
    SuccessesFirst(c, 6);
    FateFrom(CallsInOrder(c), 6);
    execed := true;
  }

  /** The stage reported is that of the first call that did not succeed. */
  lemma {:induction false} ReportsFirstFailure(calls: seq<(Stage, Call)>, e: ChildStartError)
    ensures FirstFailure(calls) == Reports(e) <==>
            exists i :: 0 <= i < |calls| && calls[i] == (e.stage, Failed(e.errorNumber)) &&
                        forall j :: 0 <= j < i ==> calls[j].1.Done?
  {
    if calls != [] {
      var rest := calls[1..];
      ReportsFirstFailure(rest, e);
      assert forall i :: 0 <= i < |rest| ==> rest[i] == calls[i + 1];
      if calls[0].1.Done? && FirstFailure(calls) == Reports(e) {
        var i :| 0 <= i < |rest| && rest[i] == (e.stage, Failed(e.errorNumber)) &&
                 forall j :: 0 <= j < i ==> rest[j].1.Done?;
        assert calls[i + 1] == (e.stage, Failed(e.errorNumber));
        assert forall j :: 0 <= j < i + 1 ==> calls[j].1.Done?;
      }
      if i :| 0 <= i < |calls| && calls[i] == (e.stage, Failed(e.errorNumber)) &&
              forall j :: 0 <= j < i ==> calls[j].1.Done?
      {
        if i > 0 {
          assert rest[i - 1] == calls[i];
        }
      }
    }
  }

  // The parent

  /** What `poll` and `read` do in one round: `poll` times out, is interrupted or fails, or
      it announces data (or the end of the pipe) and `read` is called, which may be
      interrupted, fail, or deliver up to `k` bytes. */
  datatype Outcome =
    | PollTimedOut
    | PollInterrupted
    | PollFailed(errno: int32)
    | ReadInterrupted
    | ReadFailed(errno: int32)
    | Ready(k: nat)

  /** One round of the parent's loop: the clock in milliseconds, read first, and the rest. */
  datatype Round = Round(now: int, outcome: Outcome)

  const EXEC_CONFIRMATION_TIMEOUT := 5000

  datatype Confirmation = Succeeded | ChildFailed(record: seq<byte>) | TimedOut | PipeFailed(errno: int32)

  /** What a `read` into the rest of the record delivers: at least one byte unless the pipe
      is exhausted. */
  function ReadSize(k: nat, left: nat, bytesRead: nat): (n: nat)
    requires bytesRead < RECORD_SIZE
    ensures n <= left && n <= RECORD_SIZE - bytesRead && (n == 0 <==> left == 0)
  {
    var want := if k == 0 then 1 else if k > RECORD_SIZE - bytesRead then RECORD_SIZE - bytesRead else k;
    if want < left then want else left
  }

  /** The loop, as a recursion over the script. */
  function Confirm(wire: seq<byte>, bytesRead: nat, script: seq<Round>, deadline: int): (r: Confirmation)
    requires bytesRead <= |wire| && bytesRead < RECORD_SIZE
    ensures r.ChildFailed? ==> |r.record| == RECORD_SIZE
    decreases |script|
  {
    if script == [] || deadline - script[0].now <= 0 then TimedOut
    else
      match script[0].outcome
      case PollTimedOut => TimedOut
      case PollInterrupted => Confirm(wire, bytesRead, script[1..], deadline)
      case PollFailed(errno) => PipeFailed(errno)
      case ReadInterrupted => Confirm(wire, bytesRead, script[1..], deadline)
      case ReadFailed(errno) => PipeFailed(errno)
      case Ready(k) =>
        var n := ReadSize(k, |wire| - bytesRead, bytesRead);
        if n == 0 then if bytesRead == 0 then Succeeded else PipeFailed(EPROTO)
        else if bytesRead + n == RECORD_SIZE then ChildFailed(wire[..RECORD_SIZE])
        else Confirm(wire, bytesRead + n, script[1..], deadline)
  }

  /** `started` is the time at the call. */
  method WaitForExecConfirmation(wire: seq<byte>, started: int, script: seq<Round>) returns (result: Confirmation)
    ensures result == Confirm(wire, 0, script, started + 5000)
  {
    var deadline := started + EXEC_CONFIRMATION_TIMEOUT;
    var destination: seq<byte> := [];
    var i := 0;
    while i < |script|
      invariant 0 <= i <= |script| && |destination| < RECORD_SIZE
      invariant destination <= wire
      invariant Confirm(wire, 0, script, deadline) == Confirm(wire, |destination|, script[i..], deadline)
      decreases |script| - i
    {
      var outcome := script[i].outcome;
      var remaining := deadline - script[i].now;
      assert script[i..][1..] == script[i + 1..];
      i := i + 1;
      if remaining <= 0 || outcome.PollTimedOut? {
        return TimedOut;
      }
      if outcome.PollInterrupted? {
        continue;
      }
      if outcome.PollFailed? {
        return PipeFailed(outcome.errno);
      }
      if outcome.ReadInterrupted? {
        continue;
      }
      if outcome.ReadFailed? {
        return PipeFailed(outcome.errno);
      }
      var n := ReadSize(outcome.k, |wire| - |destination|, |destination|);
      if n == 0 {
        return if |destination| == 0 then Succeeded else PipeFailed(EPROTO);
      }
      destination := destination + wire[|destination|..|destination| + n];
      if |destination| == RECORD_SIZE {
        return ChildFailed(destination);
      }
    }
    return TimedOut;
  }

  // Fragmentation does not matter

  /** What the bytes on the wire say, however they are cut. */
  function Verdict(wire: seq<byte>): Confirmation {
    if |wire| >= RECORD_SIZE then ChildFailed(wire[..RECORD_SIZE])
    else if wire == [] then Succeeded
    else PipeFailed(EPROTO)
  }

  /** The round is in time and `poll` and `read` are at worst interrupted. */
  predicate Undisturbed(x: Round, deadline: int) {
    x.now < deadline && (x.outcome.Ready? || x.outcome.PollInterrupted? || x.outcome.ReadInterrupted?)
  }

  predicate AllUndisturbed(script: seq<Round>, deadline: int) {
    forall i :: 0 <= i < |script| ==> Undisturbed(script[i], deadline)
  }

  function Readies(script: seq<Round>): nat {
    if script == [] then 0 else (if script[0].outcome.Ready? then 1 else 0) + Readies(script[1..])
  }

  /** In a round that is in time, a call fails with this error. */
  predicate FailsWith(x: Round, errno: int32, deadline: int) {
    x.now < deadline && (x.outcome == PollFailed(errno) || x.outcome == ReadFailed(errno))
  }

  /** The time is up in this round. */
  predicate TooLate(x: Round, deadline: int) { x.now >= deadline || x.outcome.PollTimedOut? }

  /** Whatever the fragmentation and the interruptions, the parent reports what is on the
      wire, unless it meets an error of `poll` or `read` or its time is up; and it does
      report the wire when none of this happens. */
  lemma {:induction false} FragmentationIrrelevant(
    wire: seq<byte>, bytesRead: nat, script: seq<Round>, deadline: int)
    requires bytesRead <= |wire| && bytesRead < RECORD_SIZE
    ensures var r := Confirm(wire, bytesRead, script, deadline);
      || r == Verdict(wire)
      || (r.TimedOut? && (AllUndisturbed(script, deadline) ||
                          exists i :: 0 <= i < |script| && TooLate(script[i], deadline)))
      || (r.PipeFailed? && exists i :: 0 <= i < |script| && FailsWith(script[i], r.errno, deadline))
    ensures AllUndisturbed(script, deadline) && Readies(script) > |wire| - bytesRead ==>
      Confirm(wire, bytesRead, script, deadline) == Verdict(wire)
    decreases |script|
  {
    if script != [] && Undisturbed(script[0], deadline) {
      var rest := script[1..];
      assert forall i :: 0 <= i < |rest| ==> rest[i] == script[i + 1];
      if script[0].outcome.Ready? {
        var n := ReadSize(script[0].outcome.k, |wire| - bytesRead, bytesRead);
        if n > 0 && bytesRead + n < RECORD_SIZE {
          FragmentationIrrelevant(wire, bytesRead + n, rest, deadline);
        }
      } else {
        FragmentationIrrelevant(wire, bytesRead, rest, deadline);
      }
    } else if script != [] {
      var r := Confirm(wire, bytesRead, script, deadline);
      assert TooLate(script[0], deadline) || FailsWith(script[0], r.errno, deadline);
    }
  }

  /** The first round that goes wrong decides, unless there was an answer before it: a passed
      deadline or a `poll` that times out ends the wait as timed out, and an error of `poll` or
      `read` ends it with that error. */
  lemma {:induction false} FirstTroubleDecides(
    wire: seq<byte>, bytesRead: nat, script: seq<Round>, deadline: int, i: nat)
    requires bytesRead <= |wire| && bytesRead < RECORD_SIZE && i < |script|
    requires AllUndisturbed(script[..i], deadline) && Confirm(wire, bytesRead, script[..i], deadline).TimedOut?
    ensures TooLate(script[i], deadline) ==> Confirm(wire, bytesRead, script, deadline).TimedOut?
    ensures forall errno :: FailsWith(script[i], errno, deadline) ==>
      Confirm(wire, bytesRead, script, deadline) == PipeFailed(errno)
    decreases |script|
  {
    if i > 0 {
      var front, rest := script[..i], script[1..];
      assert front[0] == script[0] && Undisturbed(front[0], deadline);
      assert front[1..] == rest[..i - 1];
      var outcome := script[0].outcome;
      var n := if outcome.Ready? then ReadSize(outcome.k, |wire| - bytesRead, bytesRead) else 0;
      FirstTroubleDecides(wire, bytesRead + n, rest, deadline, i - 1);
    }
  }

  /** Any answer but a timeout was found before the deadline. */
  lemma {:induction false} AnswersInTime(wire: seq<byte>, bytesRead: nat, script: seq<Round>, deadline: int)
    returns (i: nat)
    requires bytesRead <= |wire| && bytesRead < RECORD_SIZE
    requires !Confirm(wire, bytesRead, script, deadline).TimedOut?
    ensures i < |script| && forall j :: 0 <= j <= i ==> script[j].now < deadline
    ensures Confirm(wire, bytesRead, script[..i + 1], deadline) == Confirm(wire, bytesRead, script, deadline)
    decreases |script|
  {
    var rest := script[1..];
    var outcome := script[0].outcome;
    var n := if outcome.Ready? then ReadSize(outcome.k, |wire| - bytesRead, bytesRead) else 0;
    if outcome.PollInterrupted? || outcome.ReadInterrupted? || (n > 0 && bytesRead + n < RECORD_SIZE) {
      i := AnswersInTime(wire, bytesRead + n, rest, deadline);
      assert script[..i + 2][1..] == rest[..i + 1];
      i := i + 1;
    } else {
      i := 0;
      assert script[..1][0] == script[0];
    }
  }

  // Child and parent together

  /** The child's report got a byte through: some call of `write` transferred something
      before any failed and before the child was killed. */
  lemma {:induction false} NothingDelivered(writes: seq<WriteOutcome>, remaining: nat)
    requires remaining > 0
    ensures Delivered(writes, remaining) == 0 <==>
            forall i :: 0 <= i < |writes| && writes[i].Wrote? && writes[i].k > 0 ==>
              exists j :: 0 <= j < i && (writes[j].WriteFailed? || writes[j] == Wrote(0))
  {
    if writes != [] {
      var rest := writes[1..];
      if writes[0].WriteInterrupted? {
        NothingDelivered(rest, remaining);
        assert forall i :: 0 <= i < |rest| ==> rest[i] == writes[i + 1];
        if Delivered(writes, remaining) == 0 {
          forall i | 0 <= i < |writes| && writes[i].Wrote? && writes[i].k > 0
            ensures exists j :: 0 <= j < i && (writes[j].WriteFailed? || writes[j] == Wrote(0))
          {
            assert rest[i - 1] == writes[i];
            var j :| 0 <= j < i - 1 && (rest[j].WriteFailed? || rest[j] == Wrote(0));
            assert writes[j + 1] == rest[j];
          }
        } else {
          var i :| 0 <= i < |rest| && rest[i].Wrote? && rest[i].k > 0 &&
                   forall j :: 0 <= j < i ==> !(rest[j].WriteFailed? || rest[j] == Wrote(0));
          assert forall j :: 0 < j < i + 1 ==> writes[j] == rest[j - 1];
          assert writes[i + 1] == rest[i];
        }
      } else if writes[0].Wrote? && writes[0].k > 0 {
        assert Delivered(writes, remaining) > 0;
      } else {
        assert writes[0].WriteFailed? || writes[0] == Wrote(0);
      }
    }
  }

  /** A failure is reported only if the child sent the whole record, and then it is exactly
      the stage and error number of the call that failed. */
  lemma ReportedFailureIsExact(c: ChildCalls, writes: seq<WriteOutcome>, script: seq<Round>, deadline: int)
    requires Confirm(Wire(c, writes), 0, script, deadline).ChildFailed?
    ensures ChildFate(c).Reports? && Delivered(writes, RECORD_SIZE) == RECORD_SIZE
    ensures Decode(Confirm(Wire(c, writes), 0, script, deadline).record) == Some(ChildFate(c).error)
  {
    FragmentationIrrelevant(Wire(c, writes), 0, script, deadline);
    var e := ChildFate(c).error;
    assert Encode(e)[..RECORD_SIZE] == Encode(e);
    RecordRoundTrip(e, Encode(e));
  }

  /** Success means that no byte was sent: the child executed the program, or was killed
      first, or tried to report a failure and could not send its first byte. */
  lemma SuccessMeansSilence(c: ChildCalls, writes: seq<WriteOutcome>, script: seq<Round>, deadline: int)
    requires Confirm(Wire(c, writes), 0, script, deadline).Succeeded?
    ensures !ChildFate(c).Reports? || Delivered(writes, RECORD_SIZE) == 0
  {
    FragmentationIrrelevant(Wire(c, writes), 0, script, deadline);
  }

  /** The four endings of an undisturbed handshake, each with its exact condition. */
  lemma HandshakeOutcome(c: ChildCalls, writes: seq<WriteOutcome>, script: seq<Round>, deadline: int)
    requires AllUndisturbed(script, deadline)
    requires Readies(script) > |Wire(c, writes)|
    ensures var r := Confirm(Wire(c, writes), 0, script, deadline);
            var sent := if ChildFate(c).Reports? then Delivered(writes, RECORD_SIZE) else 0;
      && (r.ChildFailed? <==> sent == RECORD_SIZE)
      && (r == PipeFailed(EPROTO) <==> 0 < sent < RECORD_SIZE)
      && (r.Succeeded? <==> sent == 0)
      && (r.Succeeded? <== ChildFate(c).Execs?)
  {
    FragmentationIrrelevant(Wire(c, writes), 0, script, deadline);
  }

  /** The parent can take a failed start for a success: the child's very first `write`
      fails, so the pipe closes empty. */
  lemma LostReportLooksLikeSuccess(deadline: int)
    returns (c: ChildCalls, writes: seq<WriteOutcome>, script: seq<Round>)
    ensures ChildFate(c).Reports? && Confirm(Wire(c, writes), 0, script, deadline).Succeeded?
    ensures AllUndisturbed(script, deadline)
  {
    c := ChildCalls(Done, Failed(2), Done, Done, Done, Done);
    writes, script := [WriteFailed], [Round(deadline - 1, Ready(8))];
    assert FirstFailure(CallsInOrder(c)[1..]) == Reports(ChildStartError(ChangeDirectory, 2));
  }

  // The handshake in the supervisor's machine

  /** How far the child is in the machine when its end of the pipe is closed. */
  function ProgressOf(c: ChildCalls, writes: seq<WriteOutcome>): PM.Progress {
    match ChildFate(c)
    case Execs => PM.Execed
    case Dies => PM.BeforeExec
    case Reports(_) => if Delivered(writes, RECORD_SIZE) > 0 then PM.Progress.Reported else PM.BeforeExec
  }

  /** In this state of the machine the starting thread awaits child `g`, and the pipe has
      been closed at the child's end: it has executed its program or it is dead. */
  predicate Awaits(s: PM.State, g: nat, c: ChildCalls, writes: seq<WriteOutcome>) {
    && s.op == PM.StartHandshake(g) && g < |s.gens| && s.gens[g].progress == ProgressOf(c, writes)
    && (s.gens[g].progress.Execed? || !s.gens[g].leader.Live?)
  }

  /** Whatever the parent concludes is a step the machine allows, and the machine allows it
      to conclude success exactly if the wire says so. */
  lemma HandshakeFitsMachine(
    s: PM.State, g: nat, c: ChildCalls, writes: seq<WriteOutcome>, script: seq<Round>, deadline: int)
    requires Awaits(s, g, c, writes)
    ensures match Confirm(Wire(c, writes), 0, script, deadline)
      case Succeeded => PM.Enabled(s, PM.HandshakeOk)
      case ChildFailed(_) => PM.Enabled(s, PM.HandshakeReported)
      case TimedOut => PM.Enabled(s, PM.HandshakeAbandoned)
      case PipeFailed(_) => PM.Enabled(s, PM.HandshakeAbandoned)
    ensures PM.Enabled(s, PM.HandshakeOk) <==> Verdict(Wire(c, writes)).Succeeded?
    ensures PM.Enabled(s, PM.HandshakeReported) <==> ChildFate(c).Reports? && Delivered(writes, RECORD_SIZE) > 0
  {
    FragmentationIrrelevant(Wire(c, writes), 0, script, deadline);
  }
}
