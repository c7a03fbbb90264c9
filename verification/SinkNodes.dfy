/** The pipes to a child process as far as this process sees them, and the sinks of an output node. */
module SinkNodes {
  import opened Words
  import opened Sinks

  /** Write end of the child's stdin. `sent` is what went through, `failed` tells that a write
      returned an error. */
  class StdinPipe {
    var sent: Bytes
    var failed: bool
    /** The number of writes and the latest answer. */
    ghost var asked: nat
    ghost var last: int

    constructor ()
      ensures sent == [] && !failed
    {
      sent, failed, asked, last := [], false, 0, 0;
    }

    /** Any answer of the kernel: some bytes from the front, none, or an error (which includes the
        one for a full pipe). */
    method Write(data: Bytes) returns (res: int)
      modifies this
      ensures res <= |data|
      ensures sent == old(sent) + if res > 0 then data[..res] else []
      ensures failed == (old(failed) || res < 0)
      ensures asked == old(asked) + 1 && last == res
    {
      res := *;
      res := Min(res, |data|);
      if res > 0 {
        sent := sent + data[..res];
      }
      failed := failed || res < 0;
      asked, last := asked + 1, res;
    }
  }

  datatype ReadResult = Data(bytes: Bytes) | EndOfFile | WouldBlock | Broken

  /** After this answer nothing more comes: the end, an error, or nothing to read from a child that is gone. */
  predicate Ends(res: ReadResult, childGone: bool) {
    res.EndOfFile? || res.Broken? || (res.WouldBlock? && childGone)
  }

  /** Read end of the child's stdout or stderr. `chunks` holds the results of all reads. */
  class StdoutPipe {
    var chunks: seq<Bytes>
    /** The number of reads, and what the latest one asked for and got. */
    ghost var asked: nat
    ghost var wanted: nat
    ghost var last: ReadResult

    constructor ()
      ensures chunks == []
    {
      chunks, asked, wanted, last := [], 0, 0, WouldBlock;
    }

    method Read(lenReq: nat) returns (res: ReadResult)
      modifies this
      ensures res.Data? ==> 0 < |res.bytes| <= lenReq && chunks == old(chunks) + [res.bytes]
      ensures !res.Data? ==> chunks == old(chunks)
      ensures asked == old(asked) + 1 && wanted == lenReq && last == res
    {
      res := *;
      if res.Data? {
        if |res.bytes| == 0 {
          res := EndOfFile;
        } else if |res.bytes| > lenReq {
          res := if lenReq == 0 then EndOfFile else Data(res.bytes[..lenReq]);
        }
      }
      if res.Data? {
        chunks := chunks + [res.bytes];
      }
      asked, wanted, last := asked + 1, lenReq, res;
    }
  }

  class BufferSink {
    const dest: array<u8>
    const len: nat
    var processed: nat

    ghost predicate Valid()
      reads this
    {
      processed <= len <= dest.Length
    }

    ghost function Abs(): (b: Buffer)
      requires Valid()
      reads this, dest
      ensures Fits(b)
    {
      Buffer(len, dest[..processed])
    }

    constructor (dest: array<u8>, len: nat)
      requires len <= dest.Length
      ensures Valid() && this.dest == dest && Abs() == Buffer(len, [])
    {
      this.dest, this.len, processed := dest, len, 0;
    }

    /** Copies as much as fits behind the bytes already there. */
    method Append(chunk: Bytes)
      requires Valid()
      modifies this, dest
      ensures Valid() && Abs() == Store(old(Abs()), chunk)
    {
      var lenPlanned := Min(|chunk|, len - processed);
      forall k | 0 <= k < lenPlanned {
        dest[processed + k] := chunk[k];
      }
      processed := processed + lenPlanned;
      assert dest[..processed] == old(dest[..processed]) + chunk[..lenPlanned];
    }
  }

  class StringSink {
    var text: Bytes

    constructor (text: Bytes)
      ensures this.text == text
    {
      this.text := text;
    }
  }

  /** No two sinks share memory. */
  ghost predicate Distinct(buffers: seq<BufferSink>, strings: seq<StringSink>) {
    && (forall i, j :: 0 <= i < j < |buffers| ==> buffers[i] != buffers[j] && buffers[i].dest != buffers[j].dest)
    && (forall i, j :: 0 <= i < j < |strings| ==> strings[i] != strings[j])
  }

  ghost function SinkObjects(buffers: seq<BufferSink>, strings: seq<StringSink>): set<object> {
    (set i | 0 <= i < |buffers| :: buffers[i] as object)
    + (set i | 0 <= i < |buffers| :: buffers[i].dest as object)
    + (set i | 0 <= i < |strings| :: strings[i] as object)
  }

  class OutputNode {
    var fdRead: int
    var fdWrite: int
    var autoDone: bool
    const manualEnabled: bool
    const autoEnabled: bool
    const pipe: StdoutPipe
    const buffers: seq<BufferSink>
    const strings: seq<StringSink>
    /** What the sinks held at first, and what they hold now; the objects they are made of. */
    ghost const before: Node
    ghost const objects: set<object>
    ghost var now: Node

    /** Before the pipes are created. */
    constructor (manualEnabled: bool, autoEnabled: bool, buffers: seq<BufferSink>, strings: seq<StringSink>)
      requires Distinct(buffers, strings)
      requires forall i :: 0 <= i < |buffers| ==> buffers[i].Valid() && buffers[i].processed == 0
      ensures Valid() && !autoDone && fdRead == -1 && fdWrite == -1 && pipe.chunks == [] && fresh(this) && fresh(pipe)
      ensures this.manualEnabled == manualEnabled && this.autoEnabled == autoEnabled
      ensures this.buffers == buffers && this.strings == strings && now == before && AllEmpty(before.buffers)
    {
      fdRead, fdWrite, autoDone := -1, -1, false;
      this.manualEnabled, this.autoEnabled := manualEnabled, autoEnabled;
      this.buffers, this.strings := buffers, strings;
      pipe := new StdoutPipe();
      ghost var first := Node(seq(|buffers|, i requires 0 <= i < |buffers| => Buffer(buffers[i].len, [])),
                              seq(|strings|, i requires 0 <= i < |strings| reads set t | t in strings =>
                                strings[i].text));
      before, now, objects := first, first, SinkObjects(buffers, strings);
    }

    ghost function Repr(): set<object> {
      {this, pipe} + objects
    }

    ghost predicate Apart() {
      this as object !in objects && pipe as object !in objects
    }

    ghost predicate SinksValid()
      reads this`now, objects
    {
      && objects == SinkObjects(buffers, strings) && Distinct(buffers, strings)
      && |now.buffers| == |buffers| && |now.strings| == |strings|
      && (forall i :: 0 <= i < |buffers| ==> buffers[i].Valid() && buffers[i].Abs() == now.buffers[i])
      && (forall i :: 0 <= i < |strings| ==> strings[i].text == now.strings[i])
    }

    /** The sinks hold what the reads make of them. */
    ghost predicate Valid()
      reads this`now, pipe, objects
    {
      && Apart() && SinksValid()
      && AllFit(before.buffers)
      && (autoEnabled ==> now == ReceivedAll(before, pipe.chunks))
    }

    /** One chunk to the sinks. */
    method Deliver(chunk: Bytes) returns (passed: bool)
      requires SinksValid()
      modifies objects, this`now
      ensures SinksValid() && AllFit(old(now).buffers)
      ensures now == Received(old(now), chunk) && passed == AllFull(now.buffers)
    {
      passed := DeliverBuffers(chunk);
      if passed {
        DeliverStrings(chunk);
      }
    }

    method DeliverBuffers(chunk: Bytes) returns (passed: bool)
      requires SinksValid()
      modifies objects, this`now
      ensures SinksValid() && AllFit(old(now).buffers)
      ensures now == Node(Sinks.Deliver(old(now).buffers, chunk), old(now).strings) && passed == AllFull(now.buffers)
    {
      ghost var was := now;
      for i := 0 to |buffers|
        invariant |now.buffers| == |was.buffers| && now.strings == was.strings && SinksValid()
        invariant forall j :: 0 <= j < i ==> now.buffers[j] == Store(was.buffers[j], chunk) && Full(now.buffers[j])
        invariant forall j :: i <= j < |buffers| ==> now.buffers[j] == was.buffers[j]
      {
        if buffers[i].processed < buffers[i].len {
          AppendTo(i, chunk);
          if buffers[i].processed < buffers[i].len {
            StoppedAt(was.buffers, now.buffers, chunk, i);
            return false;
          }
        }
      }
      PassedAll(was.buffers, now.buffers, chunk);
      passed := true;
    }

    method AppendTo(i: nat, chunk: Bytes)
      requires SinksValid() && i < |buffers|
      modifies buffers[i], buffers[i].dest, this`now
      ensures SinksValid() && Fits(old(now).buffers[i])
      ensures now == old(now).(buffers := old(now).buffers[i := Store(old(now).buffers[i], chunk)])
    {
      buffers[i].Append(chunk);
      now := now.(buffers := now.buffers[i := buffers[i].Abs()]);
    }

    method DeliverStrings(chunk: Bytes)
      requires SinksValid()
      modifies objects, this`now
      ensures SinksValid()
      ensures now == old(now).(strings := Appended(old(now).strings, chunk))
    {
      ghost var was := now;
      for i := 0 to |strings|
        invariant now.buffers == was.buffers && |now.strings| == |was.strings| && SinksValid()
        invariant forall j :: 0 <= j < i ==> now.strings[j] == was.strings[j] + chunk
        invariant forall j :: i <= j < |strings| ==> now.strings[j] == was.strings[j]
      {
        strings[i].text := strings[i].text + chunk;
        now := now.(strings := now.strings[i := strings[i].text]);
      }
      assert now.strings == Appended(was.strings, chunk);
    }
  }

  lemma {:induction false} StoppedAt(was: seq<Buffer>, now: seq<Buffer>, chunk: Bytes, k: nat)
    requires AllFit(was) && k < |was| == |now|
    requires forall j :: 0 <= j < k ==> now[j] == Store(was[j], chunk) && Full(now[j])
    requires now[k] == Store(was[k], chunk) && !Full(now[k])
    requires forall j :: k < j < |was| ==> now[j] == was[j]
    ensures now == Deliver(was, chunk) && !AllFull(now)
  {
    hide Store, Full;
    assert now == [now[0]] + now[1..];
    if k == 0 {
      assert now[1..] == was[1..];
    } else {
      StoppedAt(was[1..], now[1..], chunk, k - 1);
    }
  }

  lemma {:induction false} PassedAll(was: seq<Buffer>, now: seq<Buffer>, chunk: Bytes)
    requires AllFit(was) && |was| == |now|
    requires forall j :: 0 <= j < |was| ==> now[j] == Store(was[j], chunk) && Full(now[j])
    ensures now == Deliver(was, chunk) && AllFull(now)
  {
    hide Store, Full;
    if was != [] {
      PassedAll(was[1..], now[1..], chunk);
      assert now == [now[0]] + now[1..];
    }
  }
}
