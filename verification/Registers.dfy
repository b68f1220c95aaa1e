/**
  The command path of ads131m08_spi.c: frame layout (`adc_trx`), register command words,
  and register access against a device that answers each frame in the next one.
*/
module Registers {
  import opened Wrappers
  import opened Codec

  const MAX_BUF_SZ := 2048
  const REG_NUM := 64

  // ----- command words -----

  /** The C operator `|` on non-negative numbers. */
  function BitOr(a: nat, b: nat): nat {
    if a == 0 then b
    else if b == 0 then a
    else 2 * BitOr(a / 2, b / 2) + if a % 2 == 1 || b % 2 == 1 then 1 else 0
  }

  function Pow2(k: nat): nat {
    if k == 0 then 1 else 2 * Pow2(k - 1)
  }

  /** Where the operands share no bit, `|` is `+`. */
  lemma {:induction false} BitOrDisjoint(hi: nat, lo: nat, k: nat)
    requires lo < Pow2(k)
    ensures BitOr(hi * Pow2(k), lo) == hi * Pow2(k) + lo
  {
    if k > 0 && hi > 0 && lo > 0 {
      var p := Pow2(k - 1);
      assert hi * Pow2(k) == 2 * (hi * p);
      BitOrDisjoint(hi, lo / 2, k - 1);
    }
  }

  /** `base | start_addr<<7 | (cnt-1)`, stored in 16 bits. */
  function RegCmd(base: Word, addr: Byte, cnt: nat): Word
    requires cnt > 0
  {
    BitOr(BitOr(base, addr * 0x80), cnt - 1) % 0x1_0000
  }

  datatype Command = Null | ReadRegs(addr: nat, last: nat) | WriteRegs(addr: nat, last: nat) | Other

  /** How the device reads a command word: three bits of opcode, six of address, seven of count. */
  function Decoded(cmd: Word): Command {
    if cmd == CMD_NULL then Null
    else if cmd / 0x2000 == 5 then ReadRegs(cmd / 0x80 % 0x40, cmd % 0x80)
    else if cmd / 0x2000 == 3 then WriteRegs(cmd / 0x80 % 0x40, cmd % 0x80)
    else Other
  }

  lemma RegCmdSum(op: nat, addr: nat, cnt: nat)
    requires op < 8 && addr < 64 && 1 <= cnt <= 128
    ensures RegCmd(op * 0x2000, addr, cnt) == op * 0x2000 + addr * 0x80 + (cnt - 1)
  {
    assert Pow2(7) == 0x80;
    assert Pow2(13) == 0x2000;
    BitOrDisjoint(op, addr * 0x80, 13);
    BitOrDisjoint(op * 0x40 + addr, cnt - 1, 7);
    assert (op * 0x40 + addr) * 0x80 == op * 0x2000 + addr * 0x80;
  }

  lemma FieldsApart(op: nat, addr: nat, last: nat)
    requires op < 8 && addr < 64 && last < 128
    ensures var w := op * 0x2000 + addr * 0x80 + last;
      w / 0x2000 == op && w / 0x80 % 0x40 == addr && w % 0x80 == last
  {
    var w := op * 0x2000 + addr * 0x80 + last;
    assert w / 0x80 == op * 0x40 + addr;
  }

  lemma DecodedFields(op: nat, addr: nat, last: nat)
    requires (op == 3 || op == 5) && addr < 64 && last < 128
    ensures Decoded(op * 0x2000 + addr * 0x80 + last) == if op == 5 then ReadRegs(addr, last) else WriteRegs(addr, last)
  {
    FieldsApart(op, addr, last);
  }

  lemma DecodedRange(cmd: Word)
    ensures Decoded(cmd).ReadRegs? || Decoded(cmd).WriteRegs? ==> Decoded(cmd).addr < 64 && Decoded(cmd).last < 128
  {
  }

  lemma CmdDecoded(op: nat, addr: nat, cnt: nat)
    requires (op == 3 || op == 5) && addr < 64 && 1 <= cnt <= 128
    ensures Decoded(RegCmd(op * 0x2000, addr, cnt)) ==
      if op == 5 then ReadRegs(addr, cnt - 1) else WriteRegs(addr, cnt - 1)
  {
    RegCmdSum(op, addr, cnt);
    DecodedFields(op, addr, cnt - 1);
  }

  lemma ReadCmdDecoded(addr: nat, cnt: nat)
    requires addr < 64 && 1 <= cnt <= 128
    ensures Decoded(RegCmd(CMD_RREG, addr, cnt)) == ReadRegs(addr, cnt - 1)
  {
    CmdDecoded(5, addr, cnt);
  }

  lemma WriteCmdDecoded(addr: nat, cnt: nat)
    requires addr < 64 && 1 <= cnt <= 128
    ensures Decoded(RegCmd(CMD_WREG, addr, cnt)) == WriteRegs(addr, cnt - 1)
  {
    CmdDecoded(3, addr, cnt);
  }

  /** The fields of a register command reach the device exactly when address and count fit them. */
  lemma RegCmdExact(addr: Byte, cnt: nat)
    requires cnt > 0
    ensures Decoded(RegCmd(CMD_RREG, addr, cnt)) == ReadRegs(addr, cnt - 1) <==> addr < 64 && cnt <= 128
    ensures Decoded(RegCmd(CMD_WREG, addr, cnt)) == WriteRegs(addr, cnt - 1) <==> addr < 64 && cnt <= 128
  {
    DecodedRange(RegCmd(CMD_RREG, addr, cnt));
    DecodedRange(RegCmd(CMD_WREG, addr, cnt));
    if addr < 64 && cnt <= 128 {
      ReadCmdDecoded(addr, cnt);
      WriteCmdDecoded(addr, cnt);
    }
  }

  function ShiftLeft(a: nat, k: nat): nat {
    if k == 0 then a else 2 * ShiftLeft(a, k - 1)
  }

  lemma {:induction false} ShiftIs(x: nat, k: nat)
    ensures ShiftLeft(x, k) == x * Pow2(k)
  {
    if k > 0 {
      ShiftIs(x, k - 1);
    }
  }

  /** `|` works on the bits above position `k` and leaves those below to the operand that has them. */
  lemma {:induction false} BitOrSplit(hi: nat, mid: nat, lo: nat, k: nat)
    requires lo < ShiftLeft(1, k)
    ensures BitOr(ShiftLeft(hi, k), ShiftLeft(mid, k) + lo) == ShiftLeft(BitOr(hi, mid), k) + lo
  {
    if k > 0 {
      BitOrSplit(hi, mid, lo / 2, k - 1);
      BitOrHalves(ShiftLeft(hi, k - 1), ShiftLeft(mid, k - 1) + lo / 2, lo % 2);
    }
  }

  lemma BitOrHalves(a: nat, b: nat, bit: nat)
    requires bit < 2
    ensures BitOr(2 * a, 2 * b + bit) == 2 * BitOr(a, b) + bit
  {
    assert 2 * a / 2 == a && (2 * b + bit) / 2 == b;
  }

  /**
    The registers from 64 on are taken for those from 0 on: the surplus address bit is one that
    both opcodes have set.
  */
  lemma AddressWraps(addr: Byte, cnt: nat)
    requires 64 <= addr < 128 && 1 <= cnt <= 128
    ensures Decoded(RegCmd(CMD_RREG, addr, cnt)) == ReadRegs(addr - 64, cnt - 1)
    ensures Decoded(RegCmd(CMD_WREG, addr, cnt)) == WriteRegs(addr - 64, cnt - 1)
  {
    WrapsDecoded(5, addr, cnt);
    WrapsDecoded(3, addr, cnt);
  }

  lemma WrapsDecoded(op: nat, addr: Byte, cnt: nat)
    requires (op == 3 || op == 5) && 64 <= addr < 128 && 1 <= cnt <= 128
    ensures Decoded(RegCmd(op * 0x2000, addr, cnt)) ==
      if op == 5 then ReadRegs(addr - 64, cnt - 1) else WriteRegs(addr - 64, cnt - 1)
  {
    WrapsFor(op, addr, cnt);
    DecodedFields(op, addr - 64, cnt - 1);
  }

  lemma WrapsFor(op: nat, addr: Byte, cnt: nat)
    requires (op == 3 || op == 5) && 64 <= addr < 128 && 1 <= cnt <= 128
    ensures RegCmd(op * 0x2000, addr, cnt) == op * 0x2000 + (addr - 64) * 0x80 + (cnt - 1)
  {
    assert Pow2(7) == 0x80;
    var lo := (addr - 64) * 0x80;
    OpcodeAbsorbs(op, lo);
    BitOrDisjoint(op * 0x40 + addr - 64, cnt - 1, 7);
    assert (op * 0x40 + addr - 64) * 0x80 == op * 0x2000 + lo;
  }

  lemma OpcodeAbsorbs(op: nat, lo: nat)
    requires (op == 3 || op == 5) && lo < 0x2000
    ensures BitOr(op * 0x2000, 0x2000 + lo) == op * 0x2000 + lo
  {
    assert Pow2(13) == 0x2000;
    ShiftIs(1, 13);
    ShiftIs(op, 13);
    BitOrSplit(op, 1, lo, 13);
    assert BitOr(op, 1) == op;
  }

  /** A count beyond 128 from an even address is taken for one that begins a register later and is 128 smaller. */
  lemma CountSpills(addr: Byte, cnt: nat)
    requires addr < 64 && addr % 2 == 0 && 129 <= cnt <= 256
    ensures Decoded(RegCmd(CMD_RREG, addr, cnt)) == ReadRegs(addr + 1, cnt - 129)
    ensures Decoded(RegCmd(CMD_WREG, addr, cnt)) == WriteRegs(addr + 1, cnt - 129)
  {
    SpillsDecoded(5, addr, cnt);
    SpillsDecoded(3, addr, cnt);
  }

  lemma SpillsDecoded(op: nat, addr: Byte, cnt: nat)
    requires (op == 3 || op == 5) && addr < 64 && addr % 2 == 0 && 129 <= cnt <= 256
    ensures Decoded(RegCmd(op * 0x2000, addr, cnt)) ==
      if op == 5 then ReadRegs(addr + 1, cnt - 129) else WriteRegs(addr + 1, cnt - 129)
  {
    SpillsFor(op, addr, cnt);
    DecodedFields(op, addr + 1, cnt - 129);
  }

  lemma SpillsFor(op: nat, addr: Byte, cnt: nat)
    requires (op == 3 || op == 5) && addr < 64 && addr % 2 == 0 && 129 <= cnt <= 256
    ensures RegCmd(op * 0x2000, addr, cnt) == op * 0x2000 + (addr + 1) * 0x80 + (cnt - 129)
  {
    assert Pow2(7) == 0x80;
    assert Pow2(13) == 0x2000;
    BitOrDisjoint(op, addr * 0x80, 13);
    var hi := op * 0x40 + addr;
    assert hi * 0x80 == op * 0x2000 + addr * 0x80;
    EvenOrOne(hi, cnt - 129);
  }

  lemma EvenOrOne(hi: nat, lo: nat)
    requires hi % 2 == 0 && lo < 0x80
    ensures BitOr(hi * 0x80, 0x80 + lo) == (hi + 1) * 0x80 + lo
  {
    assert Pow2(7) == 0x80;
    ShiftIs(1, 7);
    ShiftIs(hi, 7);
    ShiftIs(hi + 1, 7);
    BitOrSplit(hi, 1, lo, 7);
    assert BitOr(hi, 1) == hi + 1;
  }

  // ----- the byte operators of the converters -----

  /** `ret[i] = frame[idx++]<<8; ret[i] |= frame[idx++];` */
  lemma JoinWordIsOr(hi: Byte, lo: Byte)
    ensures JoinWord(hi, lo) == BitOr(hi * 0x100, lo)
  {
    assert Pow2(8) == 0x100;
    BitOrDisjoint(hi, lo, 8);
  }

  /** The three bytes of a value, and the sign bits set by `|= 0xFF000000`, read as a 32-bit number. */
  lemma JoinLongIsOr(b0: Byte, b1: Byte, b2: Byte)
    ensures var val := BitOr(BitOr(b0 * 0x1_0000, b1 * 0x100), b2);
      && val == b0 * 0x1_0000 + b1 * 0x100 + b2
      && JoinLong(b0, b1, b2) == if val >= 0x80_0000 then BitOr(0xFF00_0000, val) - 0x1_0000_0000 else val
  {
    assert Pow2(8) == 0x100;
    assert Pow2(16) == 0x1_0000;
    assert Pow2(24) == 0x100_0000;
    BitOrDisjoint(b0, b1 * 0x100, 16);
    BitOrDisjoint(b0 * 0x100 + b1, b2, 8);
    BitOrDisjoint(0xFF, b0 * 0x1_0000 + b1 * 0x100 + b2, 24);
  }

  // ----- frames -----

  function Max(a: nat, b: nat): nat { if a > b then a else b }

  /** Bytes of a frame that carries `tx` words out or `rx` words in. */
  function FrameLen(tx: nat, rx: nat): nat {
    BYTE_PER_WORD * if Max(tx, rx) == 0 then 1 else Max(tx, rx) + 2
  }

  function Zeros(n: nat): seq<Byte> {
    seq(n, _ => 0)
  }

  /** Exactly the packed command, then the packed words, then zeros. */
  function Frame(cmd: Word, tx: seq<Word>, rx: nat): (f: seq<Byte>)
    ensures |f| == FrameLen(|tx|, rx)
  {
    WordsToFrame([cmd] + tx) + Zeros(FrameLen(|tx|, rx) - BYTE_PER_WORD * (1 + |tx|))
  }

  /** Word `k` of a frame: two bytes and a zero. */
  predicate WordAt(f: seq<Byte>, k: nat, w: Word) {
    3 * k + 2 < |f| && f[3 * k] == w / 0x100 && f[3 * k + 1] == w % 0x100 && f[3 * k + 2] == 0
  }

  /**
    A frame that carries nothing is one word long.  Any other has room for the command, for
    the longer of what goes out and what comes in, and for one word more.  Behind the words
    that go out there are zeros only.
  */
  predicate FrameBytes(f: seq<Byte>, cmd: Word, tx: seq<Word>, rx: nat) {
    && |f| == 3 * (if |tx| == 0 && rx == 0 then 1 else if |tx| > rx then |tx| + 2 else rx + 2)
    && WordAt(f, 0, cmd)
    && (forall k :: 0 <= k < |tx| ==> WordAt(f, k + 1, tx[k]))
    && (forall j :: 3 * (|tx| + 1) <= j < |f| ==> f[j] == 0)
  }

  lemma FrameIs(cmd: Word, tx: seq<Word>, rx: nat)
    ensures FrameBytes(Frame(cmd, tx, rx), cmd, tx, rx)
  {
    var f, all := Frame(cmd, tx, rx), [cmd] + tx;
    WordsToFrameAt(all, 0);
    forall k | 0 <= k < |tx|
      ensures WordAt(f, k + 1, tx[k])
    {
      WordsToFrameAt(all, k + 1);
      assert all[k + 1] == tx[k];
    }
  }

  /** The longest frame that fits the buffers has 680 words besides the command. */
  lemma FrameFits(tx: nat, rx: nat)
    ensures FrameLen(tx, rx) <= MAX_BUF_SZ <==> tx <= 680 && rx <= 680
  {
  }

  // ----- the device -----

  datatype Device = Device(regs: seq<Word>, reply: seq<Word>, status: Word)
  {
    predicate Valid() { |regs| == REG_NUM }

    /** Register `a`; there is nothing behind the last one. */
    function Reg(a: nat): Word {
      if a < |regs| then regs[a] else 0
    }

    function Read(a: nat, cnt: nat): (ws: seq<Word>)
      ensures |ws| == cnt
    {
      if cnt == 0 then [] else Read(a, cnt - 1) + [Reg(a + cnt - 1)]
    }

    function Written(a: nat, ws: seq<Word>): (d: Device)
      ensures |d.regs| == |regs|
    {
      this.(regs := seq(|regs|, i requires 0 <= i < |regs| => if a <= i < a + |ws| then ws[i - a] else regs[i]))
    }

    /** The effect of a frame.  What it asks for is sent during the next one. */
    function After(frame: seq<Byte>): (d: Device)
      requires |frame| >= BYTE_PER_WORD && |frame| % BYTE_PER_WORD == 0
      ensures |d.regs| == |regs|
    {
      var ws := FrameToWords(frame, |frame| / BYTE_PER_WORD);
      Obey(Decoded(ws[0]), ws[1..])
    }

    function Obey(cmd: Command, args: seq<Word>): (d: Device)
      ensures |d.regs| == |regs|
    {
      match cmd
      case ReadRegs(a, last) => this.(reply := if last == 0 then [Reg(a)] else [status] + Read(a, last + 1))
      case WriteRegs(a, last) => Written(a, args[..Min(last + 1, |args|)]).(reply := [status])
      case _ => this.(reply := [status])
    }

    /** What the device sends during a frame of `len` bytes: its reply, then zeros. */
    function Sends(len: nat): (f: seq<Byte>)
      ensures |f| == len
    {
      var out := WordsToFrame(reply);
      if |out| >= len then out[..len] else out + Zeros(len - |out|)
    }
  }

  // ----- register access as functions of the device -----

  function Trx(d: Device, cmd: Word, tx: seq<Word>, rx: nat): Device {
    d.After(Frame(cmd, tx, rx))
  }

  /** The words a reader sees after the first one of a frame. */
  function Heard(d: Device, len: nat, cnt: nat): seq<Word>
    requires BYTE_PER_WORD * (1 + cnt) <= len
  {
    FrameToWords(d.Sends(len)[BYTE_PER_WORD..], cnt)
  }

  function FirstWord(d: Device, len: nat): Word
    requires BYTE_PER_WORD <= len
  {
    FrameToWords(d.Sends(len), 1)[0]
  }

  /** `ads131m08_reg_read`: ask in one frame, listen in the next; a single register comes in the first word. */
  function ReadBack(d: Device, addr: Byte, cnt: nat): seq<Word>
    requires cnt > 0
  {
    Answer(Trx(d, RegCmd(CMD_RREG, addr, cnt), [], ADC_CH_NUM), cnt)
  }

  function Answer(asked: Device, cnt: nat): seq<Word>
    requires cnt > 0
  {
    var len := FrameLen(0, cnt);
    if cnt == 1 then [FirstWord(asked, len)] else Heard(asked, len, cnt)
  }

  /** `ads131m08_reg_write`: write in one frame, read the status in the next. */
  function WriteRegisters(d: Device, addr: Byte, vs: seq<Word>): Device
    requires vs != []
  {
    Trx(Trx(d, RegCmd(CMD_WREG, addr, |vs|), vs, 0), CMD_NULL, [], 0)
  }

  /** The words of a frame, seen from the device. */
  lemma FrameWords(cmd: Word, tx: seq<Word>, rx: nat)
    ensures var f := Frame(cmd, tx, rx); var ws := FrameToWords(f, |f| / BYTE_PER_WORD);
      |ws| > |tx| && ws[0] == cmd && ws[1..1 + |tx|] == tx
  {
    var f := Frame(cmd, tx, rx);
    var all := [cmd] + tx;
    var ws := FrameToWords(f, |f| / BYTE_PER_WORD);
    WordRoundTrip(all, Zeros(FrameLen(|tx|, rx) - BYTE_PER_WORD * (1 + |tx|)));
    FrameToWordsTake(f, |f| / BYTE_PER_WORD, |all|);
    assert ws[..|all|] == all;
    assert ws[1..1 + |tx|] == ws[..|all|][1..];
  }

  /** The device acts on the command word and the words behind it. */
  lemma TrxObeys(d: Device, cmd: Word, tx: seq<Word>, rx: nat) returns (args: seq<Word>)
    ensures Trx(d, cmd, tx, rx) == d.Obey(Decoded(cmd), args) && tx <= args
  {
    var f := Frame(cmd, tx, rx);
    var ws := FrameToWords(f, |f| / BYTE_PER_WORD);
    FrameWords(cmd, tx, rx);
    args := ws[1..];
    assert args[..|tx|] == ws[1..1 + |tx|];
  }

  /** A reply that fits the frame is heard word for word. */
  lemma RepliesHeard(d: Device, len: nat, cnt: nat)
    requires BYTE_PER_WORD * (1 + cnt) <= len && |d.reply| == 1 + cnt
    ensures Heard(d, len, cnt) == d.reply[1..] && FirstWord(d, len) == d.reply[0]
  {
    var f := d.Sends(len);
    var rest := Zeros(len - BYTE_PER_WORD * (1 + cnt));
    assert f == WordsToFrame(d.reply) + rest;
    var first, others := [d.reply[0]], d.reply[1..];
    assert d.reply == first + others;
    WordsToFrameConcat(first, others);
    assert f == WordsToFrame(first) + (WordsToFrame(others) + rest);
    WordRoundTrip(first, WordsToFrame(others) + rest);
    WordRoundTrip(others, rest);
    assert f[BYTE_PER_WORD..] == WordsToFrame(others) + rest;
  }

  /** Reading returns the registers, in the one-register form and in the other. */
  lemma ReadBackIs(d: Device, addr: nat, cnt: nat)
    requires addr < 64 && 1 <= cnt <= 128
    ensures ReadBack(d, addr, cnt) == d.Read(addr, cnt)
  {
    Asked(d, addr, cnt);
    AnswerIs(Trx(d, RegCmd(CMD_RREG, addr, cnt), [], ADC_CH_NUM), cnt);
    if cnt == 1 {
      assert d.Read(addr, 0) == [];
    } else {
      assert ([d.status] + d.Read(addr, cnt))[1..] == d.Read(addr, cnt);
    }
  }

  /** One register comes in the first word, several come behind it. */
  lemma AnswerIs(asked: Device, cnt: nat)
    requires cnt > 0 && |asked.reply| == if cnt == 1 then 1 else 1 + cnt
    ensures Answer(asked, cnt) == if cnt == 1 then asked.reply else asked.reply[1..]
  {
    RepliesHeard(asked, FrameLen(0, cnt), if cnt == 1 then 0 else cnt);
  }

  /** What the device has ready after the read command. */
  lemma Asked(d: Device, addr: nat, cnt: nat)
    requires addr < 64 && 1 <= cnt <= 128
    ensures Trx(d, RegCmd(CMD_RREG, addr, cnt), [], ADC_CH_NUM).reply ==
      if cnt == 1 then [d.Reg(addr)] else [d.status] + d.Read(addr, cnt)
  {
    var cmd := RegCmd(CMD_RREG, addr, cnt);
    ReadCmdDecoded(addr, cnt);
    var args := TrxObeys(d, cmd, [], ADC_CH_NUM);
    ReadObeyed(d, addr, cnt, args);
  }

  lemma ReadObeyed(d: Device, addr: nat, cnt: nat, args: seq<Word>)
    requires cnt > 0
    ensures d.Obey(ReadRegs(addr, cnt - 1), args).reply ==
      if cnt == 1 then [d.Reg(addr)] else [d.status] + d.Read(addr, cnt)
  {
  }

  /** Writing changes the addressed registers and no others. */
  lemma WriteIs(d: Device, addr: nat, vs: seq<Word>)
    requires addr < 64 && 1 <= |vs| <= 128
    ensures WriteRegisters(d, addr, vs).regs == d.Written(addr, vs).regs
  {
    var cmd := RegCmd(CMD_WREG, addr, |vs|);
    WriteCmdDecoded(addr, |vs|);
    var args := TrxObeys(d, cmd, vs, 0);
    assert Trx(d, cmd, vs, 0) == d.Obey(WriteRegs(addr, |vs| - 1), args);
    assert args[..|vs|] == vs;
    var none := TrxObeys(Trx(d, cmd, vs, 0), CMD_NULL, [], 0);
  }

  /** What was written is read back, for every start address and every non-empty run of registers within the device. */
  lemma RegisterRoundTrip(d: Device, addr: nat, vs: seq<Word>)
    requires d.Valid() && vs != [] && addr + |vs| <= REG_NUM
    ensures ReadBack(WriteRegisters(d, addr, vs), addr, |vs|) == vs
    ensures forall a :: 0 <= a < REG_NUM && !(addr <= a < addr + |vs|) ==>
      WriteRegisters(d, addr, vs).regs[a] == d.regs[a]
  {
    var w := WriteRegisters(d, addr, vs);
    WriteIs(d, addr, vs);
    ReadBackIs(w, addr, |vs|);
    ReadWritten(d, w, addr, vs);
  }

  lemma ReadWritten(d: Device, w: Device, addr: nat, vs: seq<Word>)
    requires w.regs == d.Written(addr, vs).regs && addr + |vs| <= |d.regs|
    ensures w.Read(addr, |vs|) == vs
    ensures forall a :: 0 <= a < |d.regs| && !(addr <= a < addr + |vs|) ==> w.regs[a] == d.regs[a]
  {
    ReadIs(w, addr, |vs|);
  }

  lemma {:induction false} ReadIs(d: Device, addr: nat, cnt: nat)
    requires addr + cnt <= |d.regs|
    ensures d.Read(addr, cnt) == d.regs[addr..addr + cnt]
  {
    if cnt > 0 {
      ReadIs(d, addr, cnt - 1);
    }
  }
}
