/** One command of a pipeline: the byte pumps of its three nodes and its states up to completion. */
module FileExecutingClass {
  import opened Results
  import opened Words
  import opened Sinks
  import opened SinkNodes

  datatype State = InternalStart | PipesCreate | Fork | ParentStart | SinksReadyWait | ChildSupervise

  /** What waitpid() reports. */
  datatype ChildEvent =
    | NoChange | Again | Broken
    | Exited(code: int) | Signaled(sig: int) | Stopped(sig: int) | Continued | Unknown

  /** The answer to pipe() or open(): descriptors or an error. */
  datatype Opening = Refused | Granted(fdRead: nat, fdWrite: nat)

  /** The answer to vfork(), seen from the parent. */
  datatype Forking = NotForked | Forked(idProc: nat)

  /** What the system answers during one tick, apart from the bytes of the pipes. */
  datatype Answers = Answers(
    pipeIn: Opening, pipeOut: Opening, pipeErr: Opening,
    memory: bool, fork: Forking,
    nonBlockIn: bool, nonBlockOut: bool, nonBlockErr: bool,
    sinksReady: bool, event: ChildEvent)

  class FileExecuting {
    var state: State
    // input node
    var fdReadIn: int
    var fdWriteIn: int
    const manualIn: bool
    const autoIn: bool
    var autoDoneIn: bool
    const src: Bytes
    var processed: nat
    const stdin: StdinPipe
    // output nodes
    const nodeOut: OutputNode
    const nodeErr: OutputNode
    // flags and counters
    var sendReady: bool
    var readReady: bool
    var done: bool
    var doneAck: bool
    var bytesSent: u32
    var bytesRead: u32
    // the child
    var idChild: int
    var childStopped: bool
    var childTerminated: bool
    var childTerminatedBySig: bool
    var codeSig: int
    var codeRet: int
    /** The caller asked for the end of the input. */
    ghost var doneOutside: bool

    ghost function Repr(): set<object> {
      {this, stdin} + nodeOut.Repr() + nodeErr.Repr()
    }

    /** The two output nodes share nothing, and nothing with this object. */
    ghost predicate Apart() {
      && this as object !in nodeOut.Repr() + nodeErr.Repr()
      && stdin as object !in nodeOut.Repr() + nodeErr.Repr()
      && nodeOut.Apart() && nodeErr.Apart() && nodeOut.Repr() !! nodeErr.Repr()
    }

    /** The bytes of the source are sent in order, none twice, and all of them unless a write failed
        or the caller ended the input; a failed write, which one that would block is, leaves some
        unsent. */
    ghost predicate SourceOk()
      reads this`processed, this`autoDoneIn, this`done, this`doneAck, this`doneOutside, this`bytesSent, this`fdWriteIn
      reads stdin
    {
      && (autoIn ==>
            && processed <= |src|
            && src[..processed] <= stdin.sent <= src
            && (!autoDoneIn ==> stdin.sent == src[..processed] && !stdin.failed)
            && (stdin.failed ==> |stdin.sent| < |src|)
            && (autoDoneIn && !stdin.failed && !doneOutside ==> stdin.sent == src))
      && (done && !doneOutside ==> autoDoneIn)
      && (autoDoneIn ==> done && fdWriteIn < 0) && (doneAck ==> autoDoneIn)
      && (!stdin.failed ==> bytesSent == |stdin.sent| % TWO_32)
    }

    /** An automatic node is done as soon as its descriptor is closed. */
    static ghost predicate Pumped(node: OutputNode)
      reads node
    {
      node.fdRead >= -1 && (node.autoEnabled ==> (node.autoDone <==> node.fdRead == -1))
    }

    /** It was done with by an answer after which nothing more comes. */
    ghost predicate Drained(node: OutputNode)
      reads this`childTerminated, node`autoDone, node.pipe
    {
      node.autoEnabled && node.autoDone ==> Ends(node.pipe.last, childTerminated)
    }

    static ghost predicate Fresh(node: OutputNode)
      reads node
    {
      node.fdRead >= -1 && !node.autoDone
    }

    ghost predicate Started()
      reads this, nodeOut, nodeErr
    {
      && (autoIn && !autoDoneIn ==> fdWriteIn >= 0)
      && Pumped(nodeOut) && Pumped(nodeErr)
    }

    /** What holds of the flags in every state. */
    ghost predicate Control()
      reads this, stdin, nodeOut, nodeErr
    {
      && SourceOk()
      && (state in {InternalStart, PipesCreate} ==> !autoDoneIn && Fresh(nodeOut) && Fresh(nodeErr))
      && (state !in {InternalStart, PipesCreate} ==> Started())
      && (if state in {SinksReadyWait, ChildSupervise} then sendReady && readReady else !sendReady && !readReady)
    }

    ghost predicate Valid()
      reads Repr()
    {
      && Apart() && nodeOut.Valid() && nodeErr.Valid() && Control()
      && Drained(nodeOut) && Drained(nodeErr)
    }

    /** A source of `source` bytes if `autoIn` is set. */
    constructor (manualIn: bool, autoIn: bool, source: Bytes, nodeOut: OutputNode, nodeErr: OutputNode)
      requires nodeOut.Valid() && nodeErr.Valid() && nodeOut.Repr() !! nodeErr.Repr()
      requires Fresh(nodeOut) && Fresh(nodeErr) && nodeOut.pipe.chunks == [] == nodeErr.pipe.chunks
      ensures Valid() && !done && state == InternalStart
      ensures this.manualIn == manualIn && this.autoIn == autoIn && src == source
      ensures this.nodeOut == nodeOut && this.nodeErr == nodeErr
      ensures !doneOutside && !childTerminated
    {
      hide OutputNode.SinksValid;
      state := InternalStart;
      fdReadIn, fdWriteIn, processed, autoDoneIn := -1, -1, 0, false;
      this.manualIn, this.autoIn, src := manualIn, autoIn, source;
      this.nodeOut, this.nodeErr := nodeOut, nodeErr;
      stdin := new StdinPipe();
      sendReady, readReady, done, doneAck, doneOutside := false, false, false, false, false;
      bytesSent, bytesRead := 0, 0;
      idChild, codeSig, codeRet := -1, 0, 0;
      childStopped, childTerminated, childTerminatedBySig := false, false, false;
    }

    /** The caller ends the input. */
    method DoneSet()
      requires Control()
      modifies this`done, this`doneOutside
      ensures Control() && done && doneOutside
    {
      done, doneOutside := true, true;
    }

    // ---- sending

    /** What a call of IntSend does: all of `data` goes through, or a prefix of it if the pipe takes
        no more or a write fails. A failure closes the write end. */
    twostate predicate Sent(data: Bytes, lenDone: int)
      reads this, stdin
    {
      if data == [] || !sendReady || old(fdWriteIn) < 0 then
        && lenDone == -1 && unchanged(stdin) && unchanged(this`fdWriteIn, this`bytesSent)
      else
        var n := |stdin.sent| - |old(stdin.sent)|;
        && 0 <= n <= |data| && stdin.sent == old(stdin.sent) + data[..n] && stdin.asked > old(stdin.asked)
        && if stdin.last < 0 then
             && lenDone == -1 && n < |data| && stdin.failed
             && fdWriteIn == -1 && bytesSent == old(bytesSent)
           else
             && lenDone == n && (n == |data| || stdin.last == 0) && stdin.failed == old(stdin.failed)
             && fdWriteIn == old(fdWriteIn) && bytesSent == Add32(old(bytesSent), n % TWO_32)
    }

    method IntSend(data: Bytes) returns (lenDone: int)
      modifies this`fdWriteIn, this`bytesSent, stdin
      ensures Sent(data, lenDone)
    {
      if data == [] || !sendReady || fdWriteIn < 0 {
        return -1;
      }
      var lenReq: nat, sent: nat := |data|, 0;
      while lenReq > 0
        invariant sent + lenReq == |data|
        invariant stdin.sent == old(stdin.sent) + data[..sent]
        invariant stdin.failed == old(stdin.failed) && unchanged(this`fdWriteIn, this`bytesSent)
        invariant if lenReq == |data| then stdin.asked == old(stdin.asked)
                  else stdin.asked > old(stdin.asked) && stdin.last > 0
      {
        var res := stdin.Write(data[sent..]);
        if res < 0 {
          fdWriteIn := -1;
          return -1;
        }
        if res == 0 {
          break;
        }
        assert data[sent..][..res] == data[sent..sent + res];
        assert data[..sent] + data[sent..sent + res] == data[..sent + res];
        lenReq, sent := lenReq - res, sent + res;
      }
      bytesSent := Add32(bytesSent, sent % TWO_32);
      lenDone := sent;
    }

    /** Manual sending; refused while a source is set. */
    method Send(data: Bytes) returns (lenDone: int)
      requires Control()
      modifies this`fdWriteIn, this`bytesSent, stdin
      ensures Control()
      ensures if manualIn && !autoIn then Sent(data, lenDone)
              else lenDone == -1 && unchanged(this`fdWriteIn, this`bytesSent, stdin)
    {
      if autoIn || !manualIn {
        return -1;
      }
      lenDone := IntSend(data);
      if !stdin.failed {
        Counted(old(bytesSent), |old(stdin.sent)|, |stdin.sent|);
      }
    }

    /** What a tick does to a source: it writes the next 512 bytes, or what is left, as far as the pipe
        takes them, and is done as soon as a write failed or nothing is left. */
    twostate predicate SourceTick()
      reads this`fdWriteIn, this`processed, this`autoDoneIn, stdin
    {
      if !autoIn || old(autoDoneIn) then
        && unchanged(stdin) && unchanged(this`fdWriteIn, this`processed, this`autoDoneIn)
      else
        && old(stdin.sent) <= stdin.sent && |stdin.sent| <= |old(stdin.sent)| + 512
        && (old(processed) < |src| ==> stdin.asked > old(stdin.asked))
        && (autoDoneIn <==> stdin.failed || processed == |src|)
        && (!stdin.failed ==>
              && processed == |stdin.sent|
              && (processed == Min(old(processed) + 512, |src|) || stdin.last == 0))
    }

    /** One tick of the input node. */
    method AutoSource()
      requires SourceOk() && sendReady && (autoIn && !autoDoneIn ==> fdWriteIn >= 0)
      modifies this`fdWriteIn, this`bytesSent, this`processed, this`autoDoneIn, this`done, stdin
      ensures SourceOk() && (autoIn && !autoDoneIn ==> fdWriteIn >= 0)
      ensures SourceTick()
    {
      if !autoIn || autoDoneIn {
        return;
      }
      var lenPlanned := Min(512, |src| - processed);
      ghost var was := processed;
      var lenDone := IntSend(src[processed..processed + lenPlanned]);
      ghost var k := |stdin.sent| - was;
      assert src[was..was + lenPlanned][..k] == src[was..was + k];
      assert stdin.sent == src[..was + k];
      if lenDone < 0 {
        AutoSourceDone();
        return;
      }
      Counted(old(bytesSent), was, was + k);
      processed := processed + lenDone;
      if processed < |src| {
        return;
      }
      AutoSourceDone();
    }

    method AutoSourceDone()
      modifies this`fdWriteIn, this`autoDoneIn, this`done
      ensures autoDoneIn && (old(autoDoneIn) ==> done == old(done) && fdWriteIn == old(fdWriteIn))
      ensures !old(autoDoneIn) ==> done && fdWriteIn < 0
    {
      if autoDoneIn {
        return;
      }
      if fdWriteIn >= 0 {
        fdWriteIn := -1;
      }
      autoDoneIn := true;
      done := true;
    }

    // ---- reading

    /** What a call of IntSinkRead does. Nothing is asked of a node that cannot be read. Otherwise the
        answer is passed on: 0 if there is nothing now, negative at the end, which closes the
        descriptor. */
    twostate predicate WasRead(node: OutputNode, lenReq: nat, lenRead: int, buf: Bytes)
      reads this, node, node.pipe
    {
      if lenReq == 0 || !readReady || old(node.fdRead) < 0 then
        && lenRead == (if lenReq == 0 then -1 else if !readReady then 0 else -2) && buf == []
        && unchanged(this`bytesRead) && unchanged(node`fdRead) && unchanged(node.pipe)
      else
        var last := node.pipe.last;
        && node.pipe.asked == old(node.pipe.asked) + 1 && node.pipe.wanted == lenReq
        && node.fdRead == (if Ends(last, childTerminated) then -1 else old(node.fdRead))
        && buf == (if last.Data? then last.bytes else [])
        && lenRead == (match last
                       case Data(bytes) => |bytes|
                       case EndOfFile => -4
                       case WouldBlock => if childTerminated then -4 else 0
                       case Broken => -3)
        && node.pipe.chunks == (if last.Data? then old(node.pipe.chunks) + [buf] else old(node.pipe.chunks))
        && (last.Data? ==> 0 < |buf| <= lenReq)
        && bytesRead == Add32(old(bytesRead), |buf| % TWO_32)
    }

    /** At most `lenReq` bytes of an output node. */
    method IntSinkRead(node: OutputNode, lenReq: nat) returns (lenRead: int, buf: Bytes)
      modifies this`bytesRead, node`fdRead, node.pipe
      ensures WasRead(node, lenReq, lenRead, buf)
    {
      buf := [];
      if lenReq == 0 {
        return -1, buf;
      }
      if !readReady {
        return 0, buf;
      }
      if node.fdRead < 0 {
        return -2, buf;
      }
      var res := node.pipe.Read(lenReq);
      var isDone := Ends(res, childTerminated);
      if isDone {
        node.fdRead := -1;
      }
      if res.Broken? {
        return -3, buf;
      }
      if isDone {
        return -4, buf;
      }
      if res.WouldBlock? {
        return 0, buf;
      }
      buf := res.bytes;
      lenRead := |buf|;
      bytesRead := Add32(bytesRead, lenRead % TWO_32);
    }

    /** Manual reading; refused while the node has sinks. */
    method SinkRead(fromOut: bool, lenReq: nat) returns (lenRead: int, buf: Bytes)
      requires Valid()
      modifies this`bytesRead, nodeOut`fdRead, nodeErr`fdRead, nodeOut.pipe, nodeErr.pipe
      ensures Valid()
      ensures var node: OutputNode := if fromOut then nodeOut else nodeErr;
              if node.manualEnabled && !node.autoEnabled then WasRead(node, lenReq, lenRead, buf)
              else lenRead == -1 && buf == [] && unchanged(this`bytesRead, node`fdRead, node.pipe)
      ensures var other: OutputNode := if fromOut then nodeErr else nodeOut;
              unchanged(other`fdRead, other.pipe)
    {
      hide OutputNode.SinksValid, SourceOk, ReceivedAll;
      var node := if fromOut then nodeOut else nodeErr;
      buf := [];
      if node.autoEnabled || !node.manualEnabled {
        return -1, buf;
      }
      lenRead, buf := IntSinkRead(node, lenReq);
    }

    /** What a tick does to an output node: one with sinks that is not done is read, 22 bytes at a time,
        until nothing comes, a buffer has room left or 23 reads are made. It is done exactly when the
        last answer says that nothing more comes. */
    static twostate predicate SinkTick(node: OutputNode, childGone: bool)
      reads node, node.pipe
    {
      var asked := node.pipe.asked - old(node.pipe.asked);
      if !node.autoEnabled || old(node.autoDone) then
        unchanged(node) && unchanged(node.pipe)
      else
        && 0 < asked <= 23 && node.pipe.wanted == 22
        && (!node.pipe.last.Data? || !AllFull(node.now.buffers) || asked == 23)
        && (node.autoDone <==> Ends(node.pipe.last, childGone))
        && old(node.pipe.chunks) <= node.pipe.chunks
        && asked - 1 <= |node.pipe.chunks| - |old(node.pipe.chunks)| <= asked
    }

    /** One tick of an output node. */
    method AutoSink(node: OutputNode)
      requires node.Valid() && this as object !in node.Repr() && readReady && Pumped(node) && Drained(node)
      modifies this`bytesRead, node`fdRead, node`autoDone, node`now, node.pipe, node.objects
      ensures node.Valid() && Pumped(node) && Drained(node)
      ensures SinkTick(node, childTerminated)
    {
      if !node.autoEnabled || node.autoDone {
        return;
      }
      hide OutputNode.Valid, AllFull;
      ghost var was, asked := node.pipe.chunks, node.pipe.asked;
      for burst := 0 to 23
        invariant node.Valid() && Pumped(node) && Drained(node) && !node.autoDone
        invariant was <= node.pipe.chunks && |node.pipe.chunks| == |was| + burst && node.pipe.asked == asked + burst
        invariant burst > 0 ==> node.pipe.wanted == 22 && node.pipe.last.Data?
      {
        var goOn := SinkBurst(node);
        if !goOn {
          return;
        }
      }
    }

    /** One read, and its bytes to the sinks. */
    method SinkBurst(node: OutputNode) returns (goOn: bool)
      requires node.Valid() && this as object !in node.Repr() && readReady && Pumped(node)
      requires node.autoEnabled && !node.autoDone
      modifies this`bytesRead, node`fdRead, node`autoDone, node`now, node.pipe, node.objects
      ensures node.Valid() && Pumped(node)
      ensures node.autoDone <==> Ends(node.pipe.last, childTerminated)
      ensures node.pipe.asked == old(node.pipe.asked) + 1 && node.pipe.wanted == 22
      ensures goOn <==> node.pipe.last.Data? && AllFull(node.now.buffers)
      ensures |node.pipe.chunks| == |old(node.pipe.chunks)| + if node.pipe.last.Data? then 1 else 0
      ensures old(node.pipe.chunks) <= node.pipe.chunks
    {
      hide OutputNode.SinksValid, Received, ReceivedAll, AllFull;
      var lenDone, buf := IntSinkRead(node, 22);
      if lenDone == 0 {
        return false;
      }
      if lenDone < 0 {
        node.autoDone := true;
        return false;
      }
      ReceivedSnoc(node.before, old(node.pipe.chunks), buf);
      goOn := node.Deliver(buf);
    }

    // ---- the states

    /** A change of the child is on record; what it does not speak of stays. Nothing follows the end. */
    twostate predicate Recorded(event: ChildEvent)
      reads this
    {
      if old(childTerminated) then
        unchanged(this`idChild, this`childStopped, this`childTerminated, this`childTerminatedBySig,
                  this`codeSig, this`codeRet)
      else
        var gone := event.Exited? || event.Signaled?;
        && childTerminated == gone
        && idChild == (if gone then -1 else old(idChild))
        && childTerminatedBySig == (if gone then event.Signaled? else old(childTerminatedBySig))
        && childStopped == (if event.Stopped? then true else if event.Continued? then false else old(childStopped))
        && codeRet == (if event.Exited? then event.code else old(codeRet))
        && codeSig == (match event
                       case Signaled(sig) => sig
                       case Stopped(sig) => sig
                       case Continued => 0
                       case _ => old(codeSig))
    }

    /** Takes note of a change of the child. */
    method ChildStateRecord(event: ChildEvent) returns (r: Success)
      modifies this`idChild, this`childStopped, this`childTerminated, this`childTerminatedBySig
      modifies this`codeSig, this`codeRet
      ensures Recorded(event)
      ensures r.Failed? <==> !old(childTerminated) && (event.Broken? || event.Unknown?)
      ensures r == Pending <==> old(childTerminated) || event.NoChange? || event.Again?
    {
      if childTerminated {
        return Pending;
      }
      match event {
        case Broken => return Failed(-1);
        case Unknown => return Failed(-1);
        case NoChange => return Pending;
        case Again => return Pending;
        case Exited(code) =>
          idChild, childTerminated, childTerminatedBySig, codeRet := -1, true, false, code;
        case Signaled(sig) =>
          idChild, childTerminated, childTerminatedBySig, codeSig := -1, true, true, sig;
        case Stopped(sig) =>
          childStopped, codeSig := true, sig;
        case Continued =>
          childStopped, codeSig := false, 0;
      }
      r := Positive;
    }

    /** The pipes, or /dev/null for an output nobody reads. */
    method CreatePipes(answers: Answers) returns (r: Success)
      requires Control() && state == PipesCreate && nodeOut != nodeErr
      modifies this`fdReadIn, this`fdWriteIn, this`state
      modifies nodeOut`fdRead, nodeOut`fdWrite, nodeErr`fdRead, nodeErr`fdWrite
      ensures Control() && r == if OpeningFails(answers) then Failed(-1) else Pending
      ensures state == if r.Failed? then PipesCreate else Fork
      ensures !r.Failed? ==>
                && fdReadIn == answers.pipeIn.fdRead && fdWriteIn == answers.pipeIn.fdWrite
                && Opened(nodeOut, answers.pipeOut) && Opened(nodeErr, answers.pipeErr)
    {
      if answers.pipeIn.Refused? {
        return Failed(-1);
      }
      fdReadIn, fdWriteIn := answers.pipeIn.fdRead, answers.pipeIn.fdWrite;
      var ok := CreateOutput(nodeOut, answers.pipeOut);
      if !ok {
        return Failed(-1);
      }
      ok := CreateOutput(nodeErr, answers.pipeErr);
      if !ok {
        return Failed(-1);
      }
      state := Fork;
      r := Pending;
    }

    /** A read end is there exactly if somebody reads. */
    static twostate predicate Opened(node: OutputNode, opening: Opening)
      requires opening.Granted?
      reads node
    {
      && node.fdWrite == opening.fdWrite
      && node.fdRead == if node.manualEnabled || node.autoEnabled then opening.fdRead else old(node.fdRead)
    }

    static method CreateOutput(node: OutputNode, opening: Opening) returns (ok: bool)
      requires Fresh(node)
      modifies node`fdRead, node`fdWrite
      ensures Fresh(node) && ok == opening.Granted?
      ensures ok ==> Pumped(node) && Opened(node, opening)
    {
      ok := opening.Granted?;
      if node.manualEnabled || node.autoEnabled {
        if ok {
          node.fdRead, node.fdWrite := opening.fdRead, opening.fdWrite;
        }
      } else {
        node.fdWrite := if ok then opening.fdWrite else -1;
      }
    }

    /** The parent's side after the fork. The child has the write ends of the outputs to itself; the
        input stays open for a source or for the caller. */
    method StartParent(answers: Answers) returns (r: Success)
      requires Control() && state == ParentStart && nodeOut != nodeErr
      modifies this`fdWriteIn, this`sendReady, this`readReady, this`state, nodeOut`fdWrite, nodeErr`fdWrite
      ensures Control() && r == if old(BlockingStays(answers)) then Failed(-3) else Pending
      ensures state == if r.Failed? then ParentStart else SinksReadyWait
      ensures nodeOut.fdWrite == nodeErr.fdWrite == -1
      ensures fdWriteIn == if manualIn || autoIn then old(fdWriteIn) else Min(old(fdWriteIn), -1)
    {
      nodeOut.fdWrite, nodeErr.fdWrite := -1, -1;
      if !(manualIn || autoIn) && fdWriteIn >= 0 {
        fdWriteIn := -1;
      }
      if fdWriteIn >= 0 && !answers.nonBlockIn {
        return Failed(-3);
      }
      if nodeOut.fdRead >= 0 && !answers.nonBlockOut {
        return Failed(-3);
      }
      if nodeErr.fdRead >= 0 && !answers.nonBlockErr {
        return Failed(-3);
      }
      sendReady, readReady := true, true;
      state := SinksReadyWait;
      r := Pending;
    }

    /** What a tick does to all three nodes. The end asked for by the caller comes first. */
    twostate predicate PumpTick()
      reads this`fdWriteIn, this`processed, this`autoDoneIn, this`done, this`childTerminated, stdin
      reads nodeOut, nodeErr, nodeOut.pipe, nodeErr.pipe
    {
      && SinkTick(nodeOut, old(childTerminated)) && SinkTick(nodeErr, old(childTerminated))
      && if old(done) then autoDoneIn && unchanged(stdin) else SourceTick()
    }

    /** One tick of a running command. It is finished only when the child is gone and nothing is
        left to read. */
    method Supervise(event: ChildEvent) returns (r: Success)
      requires Valid() && state == ChildSupervise
      modifies this`fdWriteIn, this`bytesSent, this`bytesRead, this`processed, this`autoDoneIn, this`done, this`doneAck,
               this`idChild, this`childStopped, this`childTerminated, this`childTerminatedBySig,
               this`codeSig, this`codeRet,
               stdin,
               nodeOut`fdRead, nodeOut`autoDone, nodeOut`now, nodeOut.pipe, nodeOut.objects,
               nodeErr`fdRead, nodeErr`autoDone, nodeErr`now, nodeErr.pipe, nodeErr.objects
      ensures Valid() && PumpTick()
      ensures Recorded(event)
      ensures r.Failed? <==> !old(childTerminated) && (event.Broken? || event.Unknown?)
      ensures !r.Failed? ==> (r == Positive <==> childTerminated && nodeOut.fdRead == -1 && nodeErr.fdRead == -1)
    {
      hide OutputNode.Valid, SourceOk, SinkTick, SourceTick;
      PumpAll();
      var success := ChildStateRecord(event);
      if success.Failed? {
        return Failed(-1);
      }
      if !childTerminated || nodeOut.fdRead != -1 || nodeErr.fdRead != -1 {
        return Pending;
      }
      r := Positive;
    }

    method PumpAll()
      requires Valid() && state == ChildSupervise
      modifies this`fdWriteIn, this`bytesSent, this`bytesRead, this`processed, this`autoDoneIn, this`done, this`doneAck,
               stdin,
               nodeOut`fdRead, nodeOut`autoDone, nodeOut`now, nodeOut.pipe, nodeOut.objects,
               nodeErr`fdRead, nodeErr`autoDone, nodeErr`now, nodeErr.pipe, nodeErr.objects
      ensures Valid() && PumpTick()
    {
      hide OutputNode.Valid, SourceOk, AllFull;
      PumpSource();
      AutoSink(nodeOut);
      AutoSink(nodeErr);
    }

    method PumpSource()
      requires Control() && state == ChildSupervise
      modifies this`fdWriteIn, this`bytesSent, this`processed, this`autoDoneIn, this`done, this`doneAck, stdin
      ensures Control()
      ensures if old(done) then autoDoneIn && unchanged(stdin) else SourceTick()
    {
      if done && !doneAck {
        AutoSourceDone();
        doneAck := true;
      }
      AutoSource();
    }

    predicate OpeningFails(answers: Answers) {
      answers.pipeIn.Refused? || answers.pipeOut.Refused? || answers.pipeErr.Refused?
    }

    /** A descriptor the parent keeps cannot be made non-blocking. */
    predicate BlockingStays(answers: Answers)
      reads this, nodeOut, nodeErr
    {
      || ((manualIn || autoIn) && fdWriteIn >= 0 && !answers.nonBlockIn)
      || (nodeOut.fdRead >= 0 && !answers.nonBlockOut)
      || (nodeErr.fdRead >= 0 && !answers.nonBlockErr)
    }

    /** What makes a tick fail. */
    predicate Fails(answers: Answers)
      reads this, nodeOut, nodeErr
    {
      match state
      case PipesCreate => OpeningFails(answers)
      case Fork => !answers.memory || answers.fork.NotForked?
      case ParentStart => BlockingStays(answers)
      case ChildSupervise => !childTerminated && (answers.event.Broken? || answers.event.Unknown?)
      case _ => false
    }

    /** The state behind a tick that does not fail. */
    static function Next(state: State, sinksReady: bool): State {
      match state
      case InternalStart => PipesCreate
      case PipesCreate => Fork
      case Fork => ParentStart
      case ParentStart => SinksReadyWait
      case SinksReadyWait => if sinksReady then ChildSupervise else SinksReadyWait
      case ChildSupervise => ChildSupervise
    }

    method Process(answers: Answers) returns (r: Success)
      requires Valid()
      modifies Repr()
      ensures Valid()
      ensures r.Failed? <==> old(Fails(answers))
      ensures state == if r.Failed? then old(state) else Next(old(state), answers.sinksReady)
      ensures r == Positive <==>
                && old(state) == ChildSupervise && !r.Failed?
                && childTerminated && nodeOut.fdRead == -1 && nodeErr.fdRead == -1
      ensures old(state) == ChildSupervise ==>
                PumpTick() && Recorded(answers.event)
      ensures old(state) != ChildSupervise ==>
                && unchanged(stdin, nodeOut.pipe, nodeErr.pipe)
                && unchanged(this`childStopped, this`childTerminated, this`childTerminatedBySig,
                             this`codeSig, this`codeRet)
                && idChild == if old(state) == Fork && !r.Failed? then answers.fork.idProc else old(idChild)
    {
      hide OutputNode.Valid, SourceOk, PumpTick, Recorded;
      r := Pending;
      match state {
        case InternalStart =>
          state := PipesCreate;
        case PipesCreate =>
          r := CreatePipes(answers);
        case Fork =>
          if !answers.memory {
            return Failed(-1);
          }
          if answers.fork.NotForked? {
            return Failed(-1);
          }
          idChild := answers.fork.idProc;
          state := ParentStart;
        case ParentStart =>
          r := StartParent(answers);
        case SinksReadyWait =>
          if answers.sinksReady {
            state := ChildSupervise;
          }
        case ChildSupervise =>
          r := Supervise(answers.event);
      }
    }

    // ---- whole runs

    /** Any run: ticks, and in between anything the caller may do. */
    method Run(ticks: nat) returns (r: Success)
      requires Valid() && AllEmpty(nodeOut.before.buffers) && AllEmpty(nodeErr.before.buffers)
      modifies Repr()
      ensures Valid()
      ensures autoIn ==> stdin.sent <= src
      ensures autoIn && autoDoneIn && !doneOutside ==> (stdin.sent == src <==> !stdin.failed)
      ensures r == Positive ==> childTerminated
      ensures r == Positive && nodeOut.autoEnabled ==> nodeOut.autoDone
      ensures r == Positive && nodeErr.autoEnabled ==> nodeErr.autoDone
      ensures nodeOut.autoEnabled && nodeOut.autoDone ==> Ends(nodeOut.pipe.last, childTerminated)
      ensures nodeErr.autoEnabled && nodeErr.autoDone ==> Ends(nodeErr.pipe.last, childTerminated)
      ensures nodeOut.autoEnabled ==> nodeOut.now == ReceivedAll(nodeOut.before, nodeOut.pipe.chunks)
      ensures nodeErr.autoEnabled ==> nodeErr.now == ReceivedAll(nodeErr.before, nodeErr.pipe.chunks)
    {
      r := Pending;
      var left := ticks;
      while left > 0 && r == Pending
        invariant Valid()
        invariant r == Positive ==> childTerminated
        invariant r == Positive ==> (nodeOut.autoEnabled ==> nodeOut.autoDone)
        invariant r == Positive ==> (nodeErr.autoEnabled ==> nodeErr.autoDone)
      {
        hide OutputNode.Valid, SourceOk;
        Meanwhile();
        var answers: Answers := *;
        r := Process(answers);
        left := left - 1;
      }
    }

    /** What the caller does between two ticks: any number of calls. */
    method Meanwhile()
      requires Valid()
      modifies Repr()
      ensures Valid()
    {
      hide OutputNode.Valid, SourceOk, Control;
      var calls: int := *;
      while calls > 0
        invariant Valid()
      {
        Between();
        calls := calls - 1;
      }
    }

    method Between()
      requires Valid()
      modifies Repr()
      ensures Valid()
    {
      hide OutputNode.Valid, SourceOk;
      if * {
        DoneSet();
      } else if * {
        var data: Bytes := *;
        var lenDone := Send(data);
      } else if * {
        var fromOut: bool, lenReq: u32 := *, *;
        var lenRead, buf := SinkRead(fromOut, lenReq);
      }
    }
  }

  lemma ReceivedSnoc(node: Node, chunks: seq<Bytes>, chunk: Bytes)
    requires AllFit(node.buffers)
    ensures ReceivedAll(node, chunks + [chunk]) == Received(ReceivedAll(node, chunks), chunk)
  {
    assert (chunks + [chunk])[..|chunks|] == chunks;
  }

  lemma Counted(count: u32, before: nat, after: nat)
    requires before <= after && count == before % TWO_32
    ensures Add32(count, (after - before) % TWO_32) == after % TWO_32
  {
  }
}
