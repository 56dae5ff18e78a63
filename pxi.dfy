/**
 * The ARM9 side of PXI, the word FIFO between the ARM9 and ARM11 cores:
 * channel bring-up, the blocking command send, and the sync-interrupt
 * handler that answers commands from the other core.
 *
 * The registers become fields: the send and receive FIFOs are sequences of
 * words (oldest first) and REG_PXI_SYNC9 is one word. The PXI_DATA_SENT and
 * PXI_DATA_RECEIVED macros and the IPC_handleCmd dispatcher are defined
 * elsewhere, so they are function-valued constants fixed when the model is
 * built and otherwise unknown.
 */
module Pxi {
  import opened Wrappers

  // ---------------------------------------------------------------------------
  // The command header word
  // ---------------------------------------------------------------------------

  /** Bits 16-23 of a header: the number of payload words that follow. */
  const ParamsField: bv32 := 0x00FF_0000

  /** The opcode, `cmdCode>>24`: bits 24-31 of a header. */
  function Opcode(w: bv32): bv32
  {
    w >> 24
  }

  /** The parameter byte, `cmdCode>>16 & 0xFF`: bits 16-23 of a header. */
  function Params(w: bv32): bv32
  {
    (w >> 16) & 0xFF
  }

  /**
   * The header PXI_sendCmd writes: `cmd | words<<16`. When `cmd` leaves bits
   * 16-23 clear, the receiving side decodes the word count and the opcode
   * back unchanged; the bits outside 16-23 are those of `cmd` in every case.
   */
  function Header(cmd: bv32, words: bv8): (h: bv32)
    ensures cmd & ParamsField == 0 ==> Params(h) == words as bv32 && Opcode(h) == Opcode(cmd)
    ensures h & !ParamsField == cmd & !ParamsField
  {
    cmd | ((words as bv32) << 16)
  }

  /**
   * `cmd` is not masked: bits 16-23 it already has are or-ed into the count.
   * The announced count keeps every bit of `words`, so it is never fewer
   * than the words that follow, and it is more whenever `cmd` has a bit
   * there that `words` lacks.
   */
  lemma HeaderCountOverlaps(cmd: bv32, words: bv8)
    ensures Params(Header(cmd, words)) == Params(cmd) | words as bv32
    ensures Params(Header(cmd, words)) & words as bv32 == words as bv32
  {
  }

  /** `9u<<8`: the value PXI_init puts in the sync register's send field. */
  const InitSent: bv32 := 0x900

  /** The word count that goes into the header: forced to 0 when `buf` is NULL. */
  function SentWords(buf: Option<seq<bv32>>, words: bv8): bv8
  {
    if buf.None? then 0 else words
  }

  /** The payload words that `PXI_sendCmd(cmd, buf, words)` reads: none when `buf` is NULL. */
  function Payload(buf: Option<seq<bv32>>, words: bv8): (p: seq<bv32>)
    requires buf.Some? ==> words as int <= |buf.value|
    ensures |p| == SentWords(buf, words) as int
    ensures buf.Some? ==> p == buf.value[..words]
  {
    if buf.None? then [] else buf.value[..words]
  }

  /** The words one `PXI_sendCmd` pushes, in order: the header, then the payload. */
  function Frame(cmd: bv32, buf: Option<seq<bv32>>, words: bv8): (f: seq<bv32>)
    requires buf.Some? ==> words as int <= |buf.value|
    ensures |f| == SentWords(buf, words) as int + 1
    ensures f[0] == Header(cmd, SentWords(buf, words))
    ensures f[1..] == Payload(buf, words)
  {
    [Header(cmd, SentWords(buf, words))] + Payload(buf, words)
  }

  /**
   * A frame is its header followed by its payload: `Frame` unfolded once,
   * stated as a lemma only so that `PushFrame` can name the step.
   */
  lemma FrameParts(cmd: bv32, buf: Option<seq<bv32>>, words: bv8)
    requires buf.Some? ==> words as int <= |buf.value|
    ensures Frame(cmd, buf, words) == [Header(cmd, SentWords(buf, words))] + Payload(buf, words)
  {
  }

  /**
   * The word count a header carries in bits 16-23, as the u8 it was sent
   * as: `Params` narrowed to `bv8`.
   */
  function WordCount(h: bv32): bv8
  {
    ((h >> 16) & 0xFF) as bv8
  }

  /** The payload length announced by a header, as a number. */
  function Announced(h: bv32): (n: nat)
    ensures n < 256
  {
    WordCount(h) as int
  }

  /** A count below 256 survives the trip into bits 16-23 and back. */
  lemma WordCountHeader(cmd: bv32, words: bv8)
    requires cmd & ParamsField == 0
    ensures WordCount(Header(cmd, words)) == words
  {
    assert Params(Header(cmd, words)) == words as bv32;
  }

  /**
   * When the command's bits 16-23 are clear, the header of a frame announces
   * exactly the number of words that follow it, and carries the opcode.
   */
  lemma FrameAnnouncesLength(cmd: bv32, buf: Option<seq<bv32>>, words: bv8)
    requires buf.Some? ==> words as int <= |buf.value|
    requires cmd & ParamsField == 0
    ensures var f := Frame(cmd, buf, words);
      WordCount(f[0]) == SentWords(buf, words) && Announced(f[0]) == |f| - 1 && Opcode(f[0]) == Opcode(cmd)
  {
    WordCountHeader(cmd, SentWords(buf, words));
  }

  // ---------------------------------------------------------------------------
  // Back-to-back commands stay delimited
  // ---------------------------------------------------------------------------

  /** A command as the caller hands it over: the command word, the `words` argument and the buffer. */
  datatype Command = Command(cmd: bv32, words: bv8, payload: seq<bv32>)

  /** A command whose header can carry its word count, with a buffer of exactly that many words. */
  predicate Framable(c: Command)
  {
    c.cmd & ParamsField == 0 && |c.payload| == c.words as int
  }

  /** The frame `PXI_sendCmd(c.cmd, c.payload, c.words)` pushes. */
  function FrameOf(c: Command): seq<bv32>
    requires Framable(c)
  {
    Frame(c.cmd, Some(c.payload), c.words)
  }

  /** The words a sequence of commands puts on the FIFO, one frame after another. */
  function Stream(cs: seq<Command>): (s: seq<bv32>)
    requires forall i :: 0 <= i < |cs| ==> Framable(cs[i])
  {
    if cs == [] then []
    else assert Framable(cs[0]); FrameOf(cs[0]) + Stream(cs[1..])
  }

  /** A header with its word-count bits cleared: the command as the caller wrote it. */
  function CommandWord(h: bv32): bv32
  {
    h & !ParamsField
  }

  /**
   * How the receiving side splits the FIFO stream: a header, then as many
   * payload words as its bits 16-23 announce. `None` when the stream ends
   * inside a frame.
   */
  function Split(s: seq<bv32>): (r: Option<seq<Command>>)
    decreases |s|
  {
    if s == [] then Some([])
    else
      var n := Announced(s[0]);
      if |s| - 1 < n then None
      else match Split(s[1 + n..])
        case None => None
        case Some(rest) => Some([Command(CommandWord(s[0]), WordCount(s[0]), s[1..1 + n])] + rest)
  }

  /** What the receiving side reads from a frame's header: the command word and the payload length. */
  lemma FrameHeader(c: Command)
    requires Framable(c)
    ensures |FrameOf(c)| == 1 + |c.payload| && FrameOf(c)[1..] == c.payload
    ensures WordCount(FrameOf(c)[0]) == c.words && Announced(FrameOf(c)[0]) == |c.payload|
    ensures CommandWord(FrameOf(c)[0]) == c.cmd
  {
    FrameAnnouncesLength(c.cmd, Some(c.payload), c.words);
  }

  /** One frame at the head of the stream splits off as exactly its command. */
  lemma SplitFrame(c: Command, rest: seq<bv32>)
    requires Framable(c)
    ensures Split(FrameOf(c) + rest) == match Split(rest)
                                         case None => None
                                         case Some(r) => Some([c] + r)
  {
    var f := FrameOf(c);
    var s := f + rest;
    var n := |c.payload|;
    FrameHeader(c);
    assert s[0] == f[0];
    assert s[1 + n..] == rest;
    assert s[1..1 + n] == f[1..];
  }

  /** The counted-word framing loses nothing: splitting the stream gives back every command. */
  lemma {:induction false} SplitStream(cs: seq<Command>)
    requires forall i :: 0 <= i < |cs| ==> Framable(cs[i])
    ensures Split(Stream(cs)) == Some(cs)
  {
    if cs != [] {
      assert Framable(cs[0]);
      SplitStream(cs[1..]);
      SplitFrame(cs[0], Stream(cs[1..]));
      assert [cs[0]] + cs[1..] == cs;
    }
  }

  // ---------------------------------------------------------------------------
  // The channel
  // ---------------------------------------------------------------------------

  class Channel {
    /** Words written to REG_PXI_SEND9 and not yet taken by the ARM11. */
    var sendFifo: seq<bv32>
    /** Words the ARM11 has pushed and REG_PXI_RECV9 has not yet returned. */
    var recvFifo: seq<bv32>
    /** REG_PXI_SYNC9. */
    var sync: bv32
    /** REG_PXI_CNT9, as last written. */
    var cnt: bv32
    /** Whether pxiIrqHandler is registered for the PXI sync interrupt. */
    var irqRegistered: bool
    /** How many times REG_PXI_SYNC9 has been written. */
    ghost var syncWrites: nat
    /** The send FIFO as it stood at the latest write of REG_PXI_SYNC9. */
    ghost var fifoAtSync: seq<bv32>
    /** The value of the latest write of REG_PXI_SYNC9 by this core. */
    ghost var syncWritten: bv32

    /** PXI_DATA_SENT(sync, words): the sync value announcing `words` more words. */
    const dataSent: (bv32, bv8) -> bv32
    /** PXI_DATA_RECEIVED(sync): the count field the ARM11 last wrote. */
    const dataReceived: bv32 -> bv32
    /** IPC_handleCmd(opcode, params): the reply word for a command from the ARM11. */
    const handleCmd: (bv32, bv32) -> bv32
    /** The sync-register bits PXI_IRQ_ENABLE and PXI_NOTIFY_11. */
    const irqEnable: bv32
    const notify11: bv32
    /** PXI_FLUSH_SEND_FIFO | PXI_EMPTY_FULL_ERROR | PXI_ENABLE_SEND_RECV_FIFO. */
    const cntInit: bv32

    /** The channel before PXI_init, with the constants it depends on. */
    constructor (dataSent: (bv32, bv8) -> bv32, dataReceived: bv32 -> bv32, handleCmd: (bv32, bv32) -> bv32,
                 irqEnable: bv32, notify11: bv32, cntInit: bv32, recvFifo: seq<bv32>, sync: bv32)
      ensures this.dataSent == dataSent && this.dataReceived == dataReceived && this.handleCmd == handleCmd
      ensures this.irqEnable == irqEnable && this.notify11 == notify11 && this.cntInit == cntInit
      ensures this.sendFifo == [] && this.recvFifo == recvFifo && this.sync == sync && this.cnt == 0
      ensures !irqRegistered && syncWrites == 0 && fifoAtSync == [] && syncWritten == sync
    {
      this.dataSent, this.dataReceived, this.handleCmd := dataSent, dataReceived, handleCmd;
      this.irqEnable, this.notify11, this.cntInit := irqEnable, notify11, cntInit;
      this.sendFifo, this.recvFifo, this.sync, this.cnt := [], recvFifo, sync, 0;
      irqRegistered := false;
      syncWrites, fifoAtSync, syncWritten := 0, [], sync;
    }

    /**
     * The spin of PXI_init on REG_PXI_SYNC9: the index of the first reading
     * whose received field is 11.
     */
    method WaitForArm11(readings: seq<bv32>) returns (i: nat)
      requires exists k :: 0 <= k < |readings| && dataReceived(readings[k]) == 11
      ensures i < |readings| && dataReceived(readings[i]) == 11
      ensures forall j :: 0 <= j < i ==> dataReceived(readings[j]) != 11
    {
      i := 0;
      while dataReceived(readings[i]) != 11
        invariant 0 <= i < |readings|
        invariant forall j :: 0 <= j < i ==> dataReceived(readings[j]) != 11
        invariant exists k :: i <= k < |readings| && dataReceived(readings[k]) == 11
        decreases |readings| - i
      {
        i := i + 1;
      }
    }

    /**
     * The register writes of PXI_init: the sync interrupt enabled, both
     * FIFOs enabled with the send FIFO flushed, and the send field of the
     * sync register set to 9.
     */
    method StartHandshake()
      modifies this`sync, this`cnt, this`sendFifo, this`syncWrites, this`syncWritten, this`fifoAtSync
      ensures sync == irqEnable | InitSent && cnt == cntInit
      ensures sendFifo == [] && fifoAtSync == []
      ensures syncWrites == old(syncWrites) + 2 && syncWritten == irqEnable | InitSent
    {
      sync := irqEnable;
      syncWrites, syncWritten := syncWrites + 1, sync;
      cnt := cntInit;
      sendFifo := [];
      sync := sync | InitSent;
      syncWrites, syncWritten := syncWrites + 1, sync;
      fifoAtSync := sendFifo;
    }

    /**
     * PXI_init. `readings` are the values REG_PXI_SYNC9 shows to the spin
     * loop, one per read, while the ARM11 brings its side up; the handler is
     * registered only after the first read whose received field is 11.
     */
    method Init(readings: seq<bv32>) returns (polls: nat)
      requires exists k :: 0 <= k < |readings| && dataReceived(readings[k]) == 11
      modifies this`sync, this`cnt, this`sendFifo, this`irqRegistered, this`syncWrites, this`syncWritten, this`fifoAtSync
      ensures 1 <= polls <= |readings|
      ensures dataReceived(readings[polls - 1]) == 11
      ensures forall j :: 0 <= j < polls - 1 ==> dataReceived(readings[j]) != 11
      ensures irqRegistered && sync == readings[polls - 1] && cnt == cntInit
      ensures sendFifo == [] && fifoAtSync == []
      ensures syncWrites == old(syncWrites) + 2 && syncWritten == irqEnable | InitSent
    {
      StartHandshake();
      var i := WaitForArm11(readings);
      sync := readings[i];
      irqRegistered := true;
      polls := i + 1;
    }

    /**
     * pxiIrqHandler: take the command word from REG_PXI_RECV9, check its
     * word count against the sync register, and reply through
     * REG_PXI_SEND9. A count mismatch is a panic: `halted`, with no call to
     * IPC_handleCmd and nothing sent.
     */
    method IrqHandler() returns (halted: bool)
      requires recvFifo != []
      modifies this`recvFifo, this`sendFifo
      ensures recvFifo == old(recvFifo)[1..]
      ensures halted <==> Params(old(recvFifo)[0]) != dataReceived(old(sync))
      ensures halted ==> sendFifo == old(sendFifo)
      ensures !halted ==> sendFifo == old(sendFifo) + [handleCmd(Opcode(old(recvFifo)[0]), Params(old(recvFifo)[0]))]
    {
      var cmdCode := recvFifo[0];
      recvFifo := recvFifo[1..];
      var params := (cmdCode >> 16) & 0xFF;
      if params != dataReceived(sync) {
        return true;
      }
      sendFifo := sendFifo + [handleCmd(cmdCode >> 24, params)];
      return false;
    }

    /** The copy loop of PXI_sendCmd: the first `count` words of `buf`, in order, into REG_PXI_SEND9. */
    method PushWords(buf: seq<bv32>, count: int)
      requires 0 <= count <= |buf|
      modifies this`sendFifo
      ensures sendFifo == old(sendFifo) + buf[..count]
    {
      var i := 0;
      while i < count
        invariant 0 <= i <= count
        invariant sendFifo == old(sendFifo) + buf[..i]
      {
        assert buf[..i + 1] == buf[..i] + [buf[i]];
        sendFifo := sendFifo + [buf[i]];
        i := i + 1;
      }
    }

    /**
     * The pushes of PXI_sendCmd: a NULL buffer forces the count to 0, then
     * the header and the payload words go into REG_PXI_SEND9 in order.
     * Returns the count that was sent.
     */
    method PushFrame(cmd: bv32, buf: Option<seq<bv32>>, words: bv8) returns (n: bv8)
      requires buf.Some? ==> words as int <= |buf.value|
      modifies this`sendFifo
      ensures n == SentWords(buf, words)
      ensures sendFifo == old(sendFifo) + Frame(cmd, buf, words)
    {
      n := words;
      if buf.None? {
        n := 0;
      }
      sendFifo := sendFifo + [Header(cmd, n)];
      if buf.Some? {
        PushWords(buf.value, n as int);
      }
      FrameParts(cmd, buf, words);
    }

    /**
     * PXI_sendCmd: push the frame, notify the ARM11 through the sync
     * register once every word is in the FIFO, then return the one reply
     * word. The reply is taken to be already waiting when the receive FIFO
     * is polled.
     */
    method SendCmd(cmd: bv32, buf: Option<seq<bv32>>, words: bv8) returns (reply: bv32)
      requires buf.Some? ==> words as int <= |buf.value|
      requires recvFifo != []
      modifies this`sendFifo, this`recvFifo, this`sync, this`syncWrites, this`syncWritten, this`fifoAtSync
      ensures sendFifo == old(sendFifo) + Frame(cmd, buf, words)
      ensures sync == dataSent(old(sync), SentWords(buf, words)) | notify11
      ensures syncWrites == old(syncWrites) + 1 && fifoAtSync == sendFifo && syncWritten == sync
      ensures reply == old(recvFifo)[0] && recvFifo == old(recvFifo)[1..]
    {
      var n := PushFrame(cmd, buf, words);
      sync := dataSent(sync, n) | notify11;
      syncWrites, syncWritten := syncWrites + 1, sync;
      fifoAtSync := sendFifo;
      reply := recvFifo[0];
      recvFifo := recvFifo[1..];
    }
  }
}
