/**
  The byte-level packing of ads131m08_spi.c: 16-bit words travel as three bytes
  (upper, lower, zero), channel values as three-byte two's complement numbers.

  Shifts by constants are written as multiplications, and the bitwise "or" of
  fields that share no bit as an addition, which `Registers` proves to be the same; a
  byte is always in 0..255 here.
*/
module Codec {

  const BYTE_PER_WORD := 3
  const ADC_CH_NUM := 8
  const DATA_CNT := ADC_CH_NUM + 2
  const DATA_LEN := DATA_CNT * BYTE_PER_WORD

  type Byte = x: int | 0 <= x < 0x100
  type Word = x: int | 0 <= x < 0x1_0000
  type Long = x: int | -0x80_0000 <= x < 0x80_0000

  /** What one data transfer of the IRQ thread receives. */
  type DataFrame = f: seq<Byte> | |f| == DATA_LEN witness seq(DATA_LEN, _ => 0)

  const CMD_NULL: Word := 0x0000
  const CMD_RESET: Word := 0x0011
  const CMD_STANDBY: Word := 0x0022
  const CMD_WAKEUP: Word := 0x0033
  const CMD_LOCK: Word := 0x0555
  const CMD_UNLOCK: Word := 0x0655
  const CMD_RREG: Word := 0xA000
  const CMD_WREG: Word := 0x6000

  // ----- 16-bit words -----

  function Upper(w: Word): Byte { w / 0x100 }

  function Lower(w: Word): Byte { w % 0x100 }

  function JoinWord(hi: Byte, lo: Byte): Word { hi * 0x100 + lo }

  function WordsToFrame(ws: seq<Word>): (f: seq<Byte>)
    ensures |f| == BYTE_PER_WORD * |ws|
  {
    if ws == [] then []
    else WordsToFrame(ws[..|ws| - 1]) + [Upper(ws[|ws| - 1]), Lower(ws[|ws| - 1]), 0]
  }

  function FrameToWords(f: seq<Byte>, cnt: nat): (ws: seq<Word>)
    requires BYTE_PER_WORD * cnt <= |f|
    ensures |ws| == cnt
  {
    if cnt == 0 then []
    else FrameToWords(f, cnt - 1) + [JoinWord(f[3 * (cnt - 1)], f[3 * (cnt - 1) + 1])]
  }

  /** Which bytes of a frame each word comes from. */
  lemma {:induction false} FrameToWordsAt(f: seq<Byte>, cnt: nat, i: nat)
    requires BYTE_PER_WORD * cnt <= |f| && i < cnt
    ensures FrameToWords(f, cnt)[i] == JoinWord(f[3 * i], f[3 * i + 1])
  {
    if i < cnt - 1 {
      FrameToWordsAt(f, cnt - 1, i);
    }
  }

  lemma {:induction false} FrameToWordsTake(f: seq<Byte>, cnt: nat, m: nat)
    requires BYTE_PER_WORD * cnt <= |f| && m <= cnt
    ensures FrameToWords(f, cnt)[..m] == FrameToWords(f, m)
  {
    if m < cnt {
      FrameToWordsTake(f, cnt - 1, m);
    }
  }

  /** Only the first bytes matter. */
  lemma {:induction false} FrameToWordsPrefix(f: seq<Byte>, rest: seq<Byte>, cnt: nat)
    requires BYTE_PER_WORD * cnt <= |f|
    ensures FrameToWords(f + rest, cnt) == FrameToWords(f, cnt)
  {
    if cnt > 0 {
      FrameToWordsPrefix(f, rest, cnt - 1);
    }
  }

  /** Where each word of an array lands in the packed frame. */
  lemma {:induction false} WordsToFrameAt(ws: seq<Word>, i: nat)
    requires i < |ws|
    ensures WordsToFrame(ws)[3 * i] == Upper(ws[i])
    ensures WordsToFrame(ws)[3 * i + 1] == Lower(ws[i])
    ensures WordsToFrame(ws)[3 * i + 2] == 0
  {
    if i < |ws| - 1 {
      WordsToFrameAt(ws[..|ws| - 1], i);
    }
  }

  lemma {:induction false} WordsToFrameConcat(a: seq<Word>, b: seq<Word>)
    ensures WordsToFrame(a + b) == WordsToFrame(a) + WordsToFrame(b)
  {
    if b == [] {
      assert a + b == a;
    } else {
      var m := |b| - 1;
      WordsToFrameConcat(a, b[..m]);
      assert (a + b)[..|a + b| - 1] == a + b[..m];
    }
  }

  /** `frame2word` undoes `word2frame`, for every array of words and whatever follows in the frame. */
  lemma {:induction false} WordRoundTrip(ws: seq<Word>, rest: seq<Byte>)
    ensures FrameToWords(WordsToFrame(ws) + rest, |ws|) == ws
  {
    if ws != [] {
      var m := |ws| - 1;
      var last := [Upper(ws[m]), Lower(ws[m]), 0];
      WordRoundTrip(ws[..m], last + rest);
      assert WordsToFrame(ws) + rest == WordsToFrame(ws[..m]) + (last + rest);
    }
  }

  // ----- 24-bit channel values -----

  /** Three bytes, most significant first, sign-extended from bit 23. */
  function JoinLong(b0: Byte, b1: Byte, b2: Byte): Long {
    var val := b0 * 0x1_0000 + b1 * 0x100 + b2;
    if val >= 0x80_0000 then val - 0x100_0000 else val
  }

  /** The device's side of the same number: two's complement on 24 bits. */
  function SplitLong(v: Long): seq<Byte> {
    var u := if v < 0 then v + 0x100_0000 else v;
    [u / 0x1_0000, u / 0x100 % 0x100, u % 0x100]
  }

  function FrameToLongs(f: seq<Byte>, cnt: nat): (vs: seq<Long>)
    requires BYTE_PER_WORD * cnt <= |f|
    ensures |vs| == cnt
  {
    if cnt == 0 then []
    else FrameToLongs(f, cnt - 1) + [JoinLong(f[3 * (cnt - 1)], f[3 * (cnt - 1) + 1], f[3 * (cnt - 1) + 2])]
  }

  lemma {:induction false} FrameToLongsPrefix(f: seq<Byte>, rest: seq<Byte>, cnt: nat)
    requires BYTE_PER_WORD * cnt <= |f|
    ensures FrameToLongs(f + rest, cnt) == FrameToLongs(f, cnt)
  {
    if cnt > 0 {
      FrameToLongsPrefix(f, rest, cnt - 1);
    }
  }

  function LongsToFrame(vs: seq<Long>): (f: seq<Byte>)
    ensures |f| == BYTE_PER_WORD * |vs|
  {
    if vs == [] then [] else LongsToFrame(vs[..|vs| - 1]) + SplitLong(vs[|vs| - 1])
  }

  /** Sign extension is a bijection between byte triples and -2^23 .. 2^23 - 1. */
  lemma LongBijection(b0: Byte, b1: Byte, b2: Byte, v: Long)
    ensures SplitLong(JoinLong(b0, b1, b2)) == [b0, b1, b2]
    ensures var s := SplitLong(v); JoinLong(s[0], s[1], s[2]) == v
  {
    var val := b0 * 0x1_0000 + b1 * 0x100 + b2;
    assert val / 0x100 == b0 * 0x100 + b1;
    assert val / 0x1_0000 == b0;
    var u := if v < 0 then v + 0x100_0000 else v;
    assert u / 0x100 == u / 0x1_0000 * 0x100 + u / 0x100 % 0x100;
  }

  /** The last of several values in a frame. */
  lemma LastLong(g: seq<Byte>, last: seq<Byte>, rest: seq<Byte>, m: nat)
    requires |g| == BYTE_PER_WORD * m && |last| == BYTE_PER_WORD
    ensures var f := g + (last + rest);
      FrameToLongs(f, m + 1) == FrameToLongs(f, m) + [JoinLong(last[0], last[1], last[2])]
  {
    var f := g + (last + rest);
    assert f[3 * m] == last[0] && f[3 * m + 1] == last[1] && f[3 * m + 2] == last[2];
  }

  lemma SplitJoin(v: Long) returns (bytes: seq<Byte>)
    ensures bytes == SplitLong(v) && |bytes| == BYTE_PER_WORD
    ensures JoinLong(bytes[0], bytes[1], bytes[2]) == v
  {
    bytes := SplitLong(v);
    LongBijection(0, 0, 0, v);
  }

  /** `frame2long` reads back exactly the values a device packed. */
  lemma {:induction false} LongRoundTrip(vs: seq<Long>, rest: seq<Byte>)
    ensures FrameToLongs(LongsToFrame(vs) + rest, |vs|) == vs
  {
    if vs != [] {
      var m := |vs| - 1;
      var last := SplitJoin(vs[m]);
      var g := LongsToFrame(vs[..m]);
      LongRoundTrip(vs[..m], last + rest);
      LastLong(g, last, rest, m);
      assert LongsToFrame(vs) + rest == g + (last + rest);
    }
  }

  /** No information is lost: the frame can be rebuilt from the values read from it. */
  lemma {:induction false} LongFrameRoundTrip(f: seq<Byte>, cnt: nat)
    requires |f| == BYTE_PER_WORD * cnt
    ensures LongsToFrame(FrameToLongs(f, cnt)) == f
  {
    if cnt > 0 {
      var g, last := f[..|f| - 3], f[|f| - 3..];
      LongFrameRoundTrip(g, cnt - 1);
      assert f == g + last;
      FrameToLongsPrefix(g, last, cnt - 1);
      var vs := FrameToLongs(f, cnt);
      assert vs[..cnt - 1] == FrameToLongs(g, cnt - 1);
      LongBijection(last[0], last[1], last[2], 0);
      assert SplitLong(vs[cnt - 1]) == last;
    }
  }

  /** The eight channel values of a data frame: the words after the status word. */
  function Channels(rx: DataFrame): (ch: seq<Long>)
    ensures |ch| == ADC_CH_NUM
  {
    FrameToLongs(rx[3..], ADC_CH_NUM)
  }

  /** Channel `k` travels in the three bytes from `3 * (k + 1)` on; the first three are the status word. */
  predicate Carries(rx: DataFrame, ch: seq<int>) {
    && |ch| == 8
    && forall k :: 0 <= k < 8 ==> ch[k] == JoinLong(rx[3 * (k + 1)], rx[3 * (k + 1) + 1], rx[3 * (k + 1) + 2])
  }

  lemma {:induction false} FrameToLongsAt(f: seq<Byte>, cnt: nat, i: nat)
    requires BYTE_PER_WORD * cnt <= |f| && i < cnt
    ensures FrameToLongs(f, cnt)[i] == JoinLong(f[3 * i], f[3 * i + 1], f[3 * i + 2])
  {
    if i < cnt - 1 {
      FrameToLongsAt(f, cnt - 1, i);
    }
  }

  lemma ChannelsCarried(rx: DataFrame)
    ensures Carries(rx, Channels(rx))
  {
    forall k: nat | k < 8
      ensures Channels(rx)[k] == JoinLong(rx[3 * (k + 1)], rx[3 * (k + 1) + 1], rx[3 * (k + 1) + 2])
    {
      FrameToLongsAt(rx[3..], ADC_CH_NUM, k);
    }
  }

  /** A device that sends a status word, its eight values and a checksum word is understood. */
  lemma ChannelsRoundTrip(status: seq<Byte>, vs: seq<Long>, crc: seq<Byte>)
    requires |status| == 3 && |vs| == 8 && |crc| == 3
    ensures Channels(status + LongsToFrame(vs) + crc) == vs
  {
    assert (status + LongsToFrame(vs) + crc)[3..] == LongsToFrame(vs) + crc;
    LongRoundTrip(vs, crc);
  }

  // ----- the loops of ads131m08_spi.c -----

  method Word2Frame(data: seq<Word>, buf: array<Byte>, off: nat) returns (idx: nat)
    requires off + BYTE_PER_WORD * |data| <= buf.Length
    modifies buf
    ensures idx == BYTE_PER_WORD * |data|
    ensures buf[..] == old(buf[..off]) + WordsToFrame(data) + old(buf[off + BYTE_PER_WORD * |data|..])
  {
    idx := 0;
    for i := 0 to |data|
      invariant idx == 3 * i
      invariant buf[..off] == old(buf[..off])
      invariant buf[off..off + idx] == WordsToFrame(data[..i])
      invariant buf[off + idx..] == old(buf[off + idx..])
    {
      assert data[..i + 1][..i] == data[..i] && data[..i + 1][i] == data[i];
      ghost var done := buf[off..off + idx];
      buf[off + idx] := Upper(data[i]);
      buf[off + idx + 1] := Lower(data[i]);
      buf[off + idx + 2] := 0;
      idx := idx + 3;
      assert buf[off..off + idx] == done + [Upper(data[i]), Lower(data[i]), 0];
    }
    assert data[..|data|] == data;
    assert buf[..] == buf[..off] + buf[off..off + idx] + buf[off + idx..];
  }

  method Frame2Word(frame: array<Byte>, off: nat, ret: array<Word>, cnt: nat) returns (idx: nat)
    requires off + BYTE_PER_WORD * cnt <= frame.Length && cnt <= ret.Length
    modifies ret
    ensures idx == BYTE_PER_WORD * cnt
    ensures ret[..cnt] == FrameToWords(frame[off..], cnt)
    ensures ret[cnt..] == old(ret[cnt..])
  {
    idx := 0;
    for i := 0 to cnt
      invariant idx == 3 * i
      invariant ret[..i] == FrameToWords(frame[off..], i)
      invariant ret[cnt..] == old(ret[cnt..])
    {
      ret[i] := JoinWord(frame[off + idx], frame[off + idx + 1]);
      idx := idx + 3;
    }
  }

  method Frame2Long(frame: array<Byte>, off: nat, ret: array<Long>, cnt: nat) returns (idx: nat)
    requires off + BYTE_PER_WORD * cnt <= frame.Length && cnt <= ret.Length
    modifies ret
    ensures idx == BYTE_PER_WORD * cnt
    ensures ret[..cnt] == FrameToLongs(frame[off..], cnt)
    ensures ret[cnt..] == old(ret[cnt..])
  {
    idx := 0;
    for i := 0 to cnt
      invariant idx == 3 * i
      invariant ret[..i] == FrameToLongs(frame[off..], i)
      invariant ret[cnt..] == old(ret[cnt..])
    {
      var val := (frame[off + idx] as int) * 0x1_0000;
      val := val + (frame[off + idx + 1] as int) * 0x100;
      val := val + (frame[off + idx + 2] as int);
      if val >= 0x80_0000 {
        val := val - 0x100_0000;
      }
      ret[i] := val;
      idx := idx + 3;
    }
  }
}
