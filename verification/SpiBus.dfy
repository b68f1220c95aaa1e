/**
  `adc_trx` and register access in place: transfer buffers taken from the pool, filled,
  exchanged with the device, decoded, and put back.
*/
module SpiBus {
  import opened Wrappers
  import opened Codec
  import opened Registers

  /** Outcome of `spi_sync_transfer`; after a failure the device may be in any state. */
  datatype Wire = Clean | Broken(err: int, left: Device)

  class Xfer {
    const tx: array<Byte>
    const rx: array<Byte>

    constructor ()
      ensures tx.Length == rx.Length == MAX_BUF_SZ && tx != rx && fresh(tx) && fresh(rx)
    {
      tx := new Byte[MAX_BUF_SZ](_ => 0);
      rx := new Byte[MAX_BUF_SZ](_ => 0);
    }
  }

  /** The first buffer has been used and put back. */
  function Rotated(pool: seq<Xfer>): seq<Xfer> {
    if pool == [] then [] else pool[1..] + [pool[0]]
  }

  /** Up to two transfers have been made; each put its buffer back. */
  predicate UsedUpTo(was: seq<Xfer>, now: seq<Xfer>) {
    now == was || now == Rotated(was) || now == Rotated(Rotated(was))
  }

  /** No transfer buffer is lost on the way. */
  lemma UsedConserves(was: seq<Xfer>, now: seq<Xfer>)
    requires UsedUpTo(was, now)
    ensures multiset(now) == multiset(was)
  {
    RotatedConserves(was);
    RotatedConserves(Rotated(was));
  }

  lemma RotatedConserves(pool: seq<Xfer>)
    ensures multiset(Rotated(pool)) == multiset(pool)
    ensures forall x :: x in Rotated(pool) <==> x in pool
  {
    if pool != [] {
      assert pool == [pool[0]] + pool[1..];
    }
  }

  /** A command frame and, right behind it, the frame that listens for `cnt` words. */
  predicate TwoFrames(was: seq<seq<Byte>>, now: seq<seq<Byte>>, cmd: Word, tx: seq<Word>, rx: nat, cnt: nat) {
    && |now| == |was| + 2 && was == now[..|was|]
    && FrameBytes(now[|was|], cmd, tx, rx)
    && FrameBytes(now[|was| + 1], 0x0000, [], cnt)
  }

  lemma SecondFrame(was: seq<seq<Byte>>, mid: seq<seq<Byte>>, now: seq<seq<Byte>>,
                    cmd: Word, tx: seq<Word>, rx: nat, cnt: nat)
    requires |mid| == |was| + 1 && was == mid[..|was|] && FrameBytes(mid[|was|], cmd, tx, rx)
    requires |now| == |mid| + 1 && mid == now[..|mid|] && FrameBytes(now[|mid|], 0x0000, [], cnt)
    ensures TwoFrames(was, now, cmd, tx, rx, cnt)
  {
    assert now[|was|] == mid[|was|];
  }

  class Spi {
    var pool: seq<Xfer>
    var dev: Device
    ghost var sent: seq<seq<Byte>>

    ghost predicate Valid()
      reads this
    {
      forall x :: x in pool ==> x.tx.Length == x.rx.Length == MAX_BUF_SZ && x.tx != x.rx
    }

    /** The arrays of the transfer buffers in the pool. */
    ghost function Buffers(): set<object>
      reads this
    {
      (set x | x in pool :: x.tx as object) + set x | x in pool :: x.rx as object
    }

    /** The command in the first word, `tx` in the following ones. */
    method PackWords(x: Xfer, cmd: Word, tx: seq<Word>)
      requires BYTE_PER_WORD * (1 + |tx|) <= x.tx.Length
      modifies x.tx
      ensures x.tx[..] == WordsToFrame([cmd] + tx) + old(x.tx[..])[BYTE_PER_WORD * (1 + |tx|)..]
    {
      WordsToFrameConcat([cmd], tx);
      var idx := Word2Frame([cmd], x.tx, 0);
      if |tx| > 0 {
        ghost var was := x.tx[..];
        var more := Word2Frame(tx, x.tx, idx);
        assert was[..idx] == WordsToFrame([cmd]);
        assert was[idx + more..] == old(x.tx[..])[idx..][more..];
      }
    }

    /** Builds the frame: zeros, then the command, then the words. */
    method FillFrame(x: Xfer, cmd: Word, tx: seq<Word>, rxCnt: nat)
      requires x.tx.Length == MAX_BUF_SZ && FrameLen(|tx|, rxCnt) <= MAX_BUF_SZ
      modifies x.tx
      ensures x.tx[..FrameLen(|tx|, rxCnt)] == Frame(cmd, tx, rxCnt)
      ensures FrameBytes(x.tx[..FrameLen(|tx|, rxCnt)], cmd, tx, rxCnt)
    {
      FrameIs(cmd, tx, rxCnt);
      var len := FrameLen(|tx|, rxCnt);
      forall i | 0 <= i < len {
        x.tx[i] := 0;
      }
      PackWords(x, cmd, tx);
    }

    /** `spi_sync_transfer`, answered by the device. */
    method Exchange(x: Xfer, len: nat, wire: Wire) returns (ret: int)
      requires x.tx.Length == x.rx.Length == MAX_BUF_SZ && x.tx != x.rx
      requires BYTE_PER_WORD <= len <= MAX_BUF_SZ && len % BYTE_PER_WORD == 0
      requires wire.Broken? ==> wire.err < 0
      modifies this`dev, this`sent, x.rx
      ensures wire.Broken? ==> ret == wire.err && dev == wire.left && sent == old(sent)
      ensures wire.Clean? ==> ret == 0 && dev == old(dev).After(old(x.tx[..len]))
      ensures wire.Clean? ==> x.rx[..len] == old(dev).Sends(len) && sent == old(sent) + [old(x.tx[..len])]
    {
      if wire.Broken? {
        dev := wire.left;
        return wire.err;
      }
      var reply := dev.Sends(len);
      dev := dev.After(x.tx[..len]);
      sent := sent + [x.tx[..len]];
      forall i | 0 <= i < len {
        x.rx[i] := reply[i];
      }
      ret := 0;
    }

    /**
      `adc_trx`.  `rx` is filled only where the source passes a converter.  Whatever the
      outcome, the transfer buffer is back in the pool.
    */
    method AdcTrx(cmd: Word, tx: seq<Word>, rx: array?<Word>, rxCnt: nat, wire: Wire) returns (ret: int, status: Word)
      requires Valid() && (rx != null ==> rxCnt <= rx.Length) && (wire.Broken? ==> wire.err < 0)
      modifies this, Buffers(), rx
      ensures Valid() && Buffers() == old(Buffers())
      ensures pool == if |tx| > 680 || rxCnt > 680 then old(pool) else Rotated(old(pool))
      ensures |tx| > 680 || rxCnt > 680 ==> ret == EINVAL && dev == old(dev) && sent == old(sent)
      ensures |tx| <= 680 && rxCnt <= 680 && old(pool) == [] ==>
        ret == ENOMEM && dev == old(dev) && sent == old(sent)
      ensures |tx| <= 680 && rxCnt <= 680 && old(pool) != [] ==>
        if wire.Broken? then ret == wire.err && dev == wire.left && sent == old(sent)
        else
          && ret == 0
          && sent == old(sent) + [Frame(cmd, tx, rxCnt)]
          && FrameBytes(sent[|old(sent)|], cmd, tx, rxCnt)
          && dev == Trx(old(dev), cmd, tx, rxCnt)
          && status == FirstWord(old(dev), FrameLen(|tx|, rxCnt))
          && (rx != null ==> rx[..rxCnt] == Heard(old(dev), FrameLen(|tx|, rxCnt), rxCnt))
      ensures rx != null ==> rx[rxCnt..] == old(rx[rxCnt..]) && (ret < 0 ==> rx[..rxCnt] == old(rx[..rxCnt]))
    {
      status := 0;
      var len := FrameLen(|tx|, rxCnt);
      FrameFits(|tx|, rxCnt);
      FrameIs(cmd, tx, rxCnt);
      if len > MAX_BUF_SZ {
        return EINVAL, 0;
      }
      if pool == [] {
        return ENOMEM, 0;
      }
      var x := pool[0];
      pool := pool[1..];
      ret, status := Transfer(x, cmd, tx, rx, rxCnt, wire);
      pool := pool + [x];
      RotatedConserves(old(pool));
    }

    /** One frame out of `x` and back into it. */
    method Transfer(x: Xfer, cmd: Word, tx: seq<Word>, rx: array?<Word>, rxCnt: nat, wire: Wire)
      returns (ret: int, status: Word)
      requires x.tx.Length == x.rx.Length == MAX_BUF_SZ && x.tx != x.rx && FrameLen(|tx|, rxCnt) <= MAX_BUF_SZ
      requires (rx != null ==> rxCnt <= rx.Length) && (wire.Broken? ==> wire.err < 0)
      modifies this`dev, this`sent, x.tx, x.rx, rx
      ensures wire.Broken? ==> ret == wire.err && dev == wire.left && sent == old(sent)
      ensures wire.Clean? ==>
        && ret == 0
        && sent == old(sent) + [Frame(cmd, tx, rxCnt)]
        && dev == Trx(old(dev), cmd, tx, rxCnt)
        && status == FirstWord(old(dev), FrameLen(|tx|, rxCnt))
        && (rx != null ==> rx[..rxCnt] == Heard(old(dev), FrameLen(|tx|, rxCnt), rxCnt))
      ensures rx != null ==> rx[rxCnt..] == old(rx[rxCnt..]) && (wire.Broken? ==> rx[..rxCnt] == old(rx[..rxCnt]))
    {
      status := 0;
      var len := FrameLen(|tx|, rxCnt);
      FillFrame(x, cmd, tx, rxCnt);
      ret := Exchange(x, len, wire);
      if ret >= 0 {
        status := Listen(x, len, rx, rxCnt);
      }
    }

    /** The end of `adc_trx`: the first word is the status, the following ones go to `rx`. */
    method Listen(x: Xfer, len: nat, rx: array?<Word>, rxCnt: nat) returns (status: Word)
      requires x.rx.Length == MAX_BUF_SZ && len <= MAX_BUF_SZ && BYTE_PER_WORD <= len
      requires rx != null ==> rxCnt <= rx.Length && BYTE_PER_WORD * (1 + rxCnt) <= len
      modifies rx
      ensures status == FrameToWords(x.rx[..len], 1)[0]
      ensures rx != null ==> rx[..rxCnt] == FrameToWords(x.rx[..len][BYTE_PER_WORD..], rxCnt)
      ensures rx != null ==> rx[rxCnt..] == old(rx[rxCnt..])
    {
      var tmp := new Word[1];
      var idx := Frame2Word(x.rx, 0, tmp, 1);
      status := tmp[0];
      assert x.rx[0..] == x.rx[..len] + x.rx[len..];
      FrameToWordsPrefix(x.rx[..len], x.rx[len..], 1);
      if rx != null {
        idx := Frame2Word(x.rx, BYTE_PER_WORD, rx, rxCnt);
        assert x.rx[BYTE_PER_WORD..] == x.rx[..len][BYTE_PER_WORD..] + x.rx[len..];
        FrameToWordsPrefix(x.rx[..len][BYTE_PER_WORD..], x.rx[len..], rxCnt);
      }
    }

    /** `ads131m08_reg_read`: -EINVAL for more registers than a frame can carry. */
    method RegRead(addr: Byte, cnt: nat, retReg: array<Word>, first: Wire, second: Wire) returns (ret: int)
      requires Valid() && 1 <= cnt <= retReg.Length
      requires (first.Broken? ==> first.err < 0) && (second.Broken? ==> second.err < 0)
      modifies this, Buffers(), retReg
      ensures Valid() && UsedUpTo(old(pool), pool)
      ensures ret == 0 <==> first.Clean? && second.Clean? && pool != [] && cnt <= 680
      ensures ret == 0 ==> TwoFrames(old(sent), sent, RegCmd(CMD_RREG, addr, cnt), [], 8, cnt)
      ensures first.Clean? && pool != [] && cnt > 680 ==> ret == EINVAL
      ensures retReg[..cnt] == if ret == 0 then ReadBack(old(dev), addr, cnt) else old(retReg[..cnt])
      ensures retReg[cnt..] == old(retReg[cnt..])
      ensures ret <= 0
    {
      var status;
      ret, status := AdcTrx(RegCmd(CMD_RREG, addr, cnt), [], null, ADC_CH_NUM, first);
      if ret < 0 {
        return;
      }
      ghost var asked := sent;
      ret := HearBack(cnt, retReg, second);
      if ret == 0 {
        SecondFrame(old(sent), asked, sent, RegCmd(CMD_RREG, addr, cnt), [], 8, cnt);
      }
    }

    /** The second half of `ads131m08_reg_read`: a single register comes back as the status word. */
    method HearBack(cnt: nat, retReg: array<Word>, wire: Wire) returns (ret: int)
      requires Valid() && 1 <= cnt <= retReg.Length && (wire.Broken? ==> wire.err < 0)
      modifies this, Buffers(), retReg
      ensures Valid() && pool == if cnt > 680 then old(pool) else Rotated(old(pool))
      ensures cnt > 680 ==> ret == EINVAL
      ensures ret == 0 <==> wire.Clean? && old(pool) != [] && cnt <= 680
      ensures ret == 0 ==> |sent| == |old(sent)| + 1 && sent[..|old(sent)|] == old(sent)
      ensures ret == 0 ==> FrameBytes(sent[|old(sent)|], CMD_NULL, [], cnt)
      ensures retReg[..cnt] == if ret == 0 then Answer(old(dev), cnt) else old(retReg[..cnt])
      ensures retReg[cnt..] == old(retReg[cnt..])
      ensures ret <= 0
    {
      var status;
      ret, status := AdcTrx(CMD_NULL, [], retReg, cnt, wire);
      if ret == 0 && cnt == 1 {
        retReg[0] := status;
        assert retReg[..cnt] == [status];
      }
    }

    /** `ads131m08_reg_write` */
    method RegWrite(addr: Byte, vs: seq<Word>, first: Wire, second: Wire) returns (ret: int)
      requires Valid() && vs != []
      requires (first.Broken? ==> first.err < 0) && (second.Broken? ==> second.err < 0)
      modifies this, Buffers()
      ensures Valid() && UsedUpTo(old(pool), pool)
      ensures ret == 0 <==> first.Clean? && second.Clean? && pool != [] && |vs| <= 680
      ensures ret == 0 ==> TwoFrames(old(sent), sent, RegCmd(CMD_WREG, addr, |vs|), vs, 0, 0)
      ensures |vs| > 680 ==> ret == EINVAL && sent == old(sent) && dev == old(dev)
      ensures ret == 0 ==> dev == WriteRegisters(old(dev), addr, vs)
      ensures ret <= 0
    {
      var status;
      ret, status := AdcTrx(RegCmd(CMD_WREG, addr, |vs|), vs, null, 0, first);
      if ret < 0 {
        return;
      }
      ghost var asked := sent;
      ret, status := AdcTrx(CMD_NULL, [], null, 0, second);
      if ret == 0 {
        SecondFrame(old(sent), asked, sent, RegCmd(CMD_WREG, addr, |vs|), vs, 0, 0);
      }
    }
  }
}
