/** The byte transport: what `SPI_Transfer` does with the USART's STATUS,
    TXDATA and RXDATA registers. The model does not know when the hardware
    raises a flag; it is given the successive values that reads of STATUS
    return (the feed) and specifies the transfer against them. */
module Transport {
  import opened Lis3dhMap

  datatype Option<T> = None | Some(value: T)

  /** The two STATUS flags the transfer waits on. */
  datatype Flag = TxBufferLevel | TxComplete

  function Mask(f: Flag): bv32 {
    match f
    case TxBufferLevel => TXBL_MASK
    case TxComplete => TXC_MASK
  }

  /** The loop condition of the source, `((STATUS & MASK) >> bit) == 1`,
      holds exactly when the flag's bit is set. */
  function Raised(s: bv32, f: Flag): (r: bool)
    ensures r <==> s & Mask(f) != 0
  {
    match f
    case TxBufferLevel => (s & TXBL_MASK) >> 6 == 1
    case TxComplete => (s & TXC_MASK) >> 5 == 1
  }

  /** Index of the first STATUS value at or after `from` with flag `f` raised:
      the read on which a busy-wait loop over the feed stops. */
  function Await(feed: seq<bv32>, from: nat, f: Flag): (r: Option<nat>)
    ensures r.Some? ==> from <= r.value < |feed| && Raised(feed[r.value], f)
    decreases |feed| - from
  {
    if from >= |feed| then None
    else if Raised(feed[from], f) then Some(from)
    else Await(feed, from + 1, f)
  }

  /** The loop stops at the FIRST raised flag, and waits in vain only when the
      flag is never raised. */
  lemma {:induction false} AwaitIsFirst(feed: seq<bv32>, from: nat, f: Flag)
    ensures Await(feed, from, f).Some? ==>
              forall i :: from <= i < Await(feed, from, f).value ==> !Raised(feed[i], f)
    ensures Await(feed, from, f).None? <==>
              forall i :: from <= i < |feed| ==> !Raised(feed[i], f)
    decreases |feed| - from
  {
    if from < |feed| && !Raised(feed[from], f) {
      AwaitIsFirst(feed, from + 1, f);
    }
  }

  /** Number of STATUS reads consumed once one transfer starting at `from`
      has waited for TXBL and then for TXC; None if the feed never gets there. */
  function TransferEnd(feed: seq<bv32>, from: nat): (r: Option<nat>)
    ensures r.Some? ==> from + 2 <= r.value <= |feed|
  {
    match Await(feed, from, TxBufferLevel)
    case None => None
    case Some(k) =>
      match Await(feed, k + 1, TxComplete)
      case None => None
      case Some(m) => Some(m + 1)
  }

  /** The feed lets `n` transfers complete, one after another, from `from`. */
  predicate CanTransfer(feed: seq<bv32>, from: nat, n: nat)
    decreases n
  {
    n == 0 || (TransferEnd(feed, from).Some? && CanTransfer(feed, TransferEnd(feed, from).value, n - 1))
  }

  /** STATUS reads consumed after `n` transfers from `from`. */
  function PollsAfter(feed: seq<bv32>, from: nat, n: nat): (p: nat)
    requires CanTransfer(feed, from, n)
    ensures from + 2 * n <= p
    ensures n > 0 ==> p <= |feed|
    decreases n
  {
    if n == 0 then from else PollsAfter(feed, TransferEnd(feed, from).value, n - 1)
  }

  /** One access of the driver to a USART register. */
  datatype Access = StatusRead(status: bv32) | TxWrite(data: byte) | RxRead(data: byte)

  /** The reads of STATUS that return feed[lo..hi], in order. */
  function PollsIo(feed: seq<bv32>, lo: nat, hi: nat): seq<Access>
    requires lo <= hi <= |feed|
    decreases hi - lo
  {
    if hi == lo then [] else PollsIo(feed, lo, hi - 1) + [StatusRead(feed[hi - 1])]
  }

  /** The register accesses of one transfer that sends `out` and receives `in`. */
  function TransferIo(feed: seq<bv32>, from: nat, out: byte, got: byte): seq<Access>
    requires TransferEnd(feed, from).Some?
  {
    var k := Await(feed, from, TxBufferLevel).value;
    var m := Await(feed, k + 1, TxComplete).value;
    PollsIo(feed, from, k + 1) + [TxWrite(out)] + PollsIo(feed, k + 1, m + 1) + [RxRead(got)]
  }

  /** The register accesses of consecutive transfers of `mosi`, receiving `miso`. */
  function TransfersIo(feed: seq<bv32>, from: nat, mosi: seq<byte>, miso: seq<byte>): seq<Access>
    requires |mosi| == |miso| && CanTransfer(feed, from, |mosi|)
    decreases |mosi|
  {
    if mosi == [] then []
    else TransferIo(feed, from, mosi[0], miso[0])
         + TransfersIo(feed, TransferEnd(feed, from).value, mosi[1..], miso[1..])
  }

  lemma {:induction false} PollsIoAt(feed: seq<bv32>, lo: nat, hi: nat)
    requires lo <= hi <= |feed|
    ensures |PollsIo(feed, lo, hi)| == hi - lo
    ensures forall i :: 0 <= i < hi - lo ==> PollsIo(feed, lo, hi)[i] == StatusRead(feed[lo + i])
    decreases hi - lo
  {
    if hi > lo {
      PollsIoAt(feed, lo, hi - 1);
    }
  }

  /** The STATUS reads of one busy-wait loop: all fail the test but the last. */
  predicate WaitUntil(polls: seq<Access>, f: Flag) {
    && |polls| > 0
    && (forall i :: 0 <= i < |polls| ==> polls[i].StatusRead?)
    && Raised(polls[|polls| - 1].status, f)
    && (forall i :: 0 <= i < |polls| - 1 ==> !Raised(polls[i].status, f))
  }

  lemma AwaitPolls(feed: seq<bv32>, from: nat, f: Flag)
    requires Await(feed, from, f).Some?
    ensures WaitUntil(PollsIo(feed, from, Await(feed, from, f).value + 1), f)
  {
    var k := Await(feed, from, f).value;
    AwaitIsFirst(feed, from, f);
    PollsIoAt(feed, from, k + 1);
  }

  /** Ordering of one transfer: STATUS is read until TXBL shows, then TXDATA is
      written, then STATUS is read until TXC shows, then RXDATA is read, and
      its value is the one the transfer returns. */
  lemma TransferOrdering(feed: seq<bv32>, from: nat, out: byte, got: byte)
    requires TransferEnd(feed, from).Some?
    ensures var io := TransferIo(feed, from, out, got);
            var p := Await(feed, from, TxBufferLevel).value + 1 - from;
            && 1 <= p < |io| - 2
            && WaitUntil(io[..p], TxBufferLevel)
            && io[p] == TxWrite(out)
            && WaitUntil(io[p + 1..|io| - 1], TxComplete)
            && io[|io| - 1] == RxRead(got)
  {
    var k := Await(feed, from, TxBufferLevel).value;
    var m := Await(feed, k + 1, TxComplete).value;
    AwaitPolls(feed, from, TxBufferLevel);
    AwaitPolls(feed, k + 1, TxComplete);
    var a := PollsIo(feed, from, k + 1);
    var b := PollsIo(feed, k + 1, m + 1);
    PollsIoAt(feed, from, k + 1);
    PollsIoAt(feed, k + 1, m + 1);
    assert TransferIo(feed, from, out, got) == a + [TxWrite(out)] + b + [RxRead(got)];
    BracketAt(a, TxWrite(out), b, RxRead(got));
  }

  /** Positions in `a + [x] + b + [y]`. */
  lemma BracketAt<T>(a: seq<T>, x: T, b: seq<T>, y: T)
    ensures var s := a + [x] + b + [y];
            && |s| == |a| + |b| + 2
            && s[..|a|] == a
            && s[|a|] == x
            && s[|a| + 1..|s| - 1] == b
            && s[|s| - 1] == y
  {
    var s := a + [x] + b + [y];
    assert s[..|a|] == a;
    assert s[|a| + 1..|s| - 1] == b;
  }

  /** Splitting a run of transfers in two. */
  lemma {:induction false} CanTransferSplit(feed: seq<bv32>, from: nat, n: nat, m: nat)
    ensures CanTransfer(feed, from, n + m) <==>
            CanTransfer(feed, from, n) && CanTransfer(feed, PollsAfter(feed, from, n), m)
    decreases n
  {
    if n > 0 && TransferEnd(feed, from).Some? {
      CanTransferSplit(feed, TransferEnd(feed, from).value, n - 1, m);
    }
  }

  lemma {:induction false} PollsAfterSplit(feed: seq<bv32>, from: nat, n: nat, m: nat)
    requires CanTransfer(feed, from, n + m)
    ensures CanTransfer(feed, from, n) && CanTransfer(feed, PollsAfter(feed, from, n), m)
    ensures PollsAfter(feed, from, n + m) == PollsAfter(feed, PollsAfter(feed, from, n), m)
    decreases n
  {
    CanTransferSplit(feed, from, n, m);
    if n > 0 {
      PollsAfterSplit(feed, TransferEnd(feed, from).value, n - 1, m);
    }
  }

  /** The accesses of consecutive transfers are those of the first run followed
      by those of the second. */
  lemma {:induction false} TransfersIoAppend(feed: seq<bv32>, from: nat, m1: seq<byte>, r1: seq<byte>, m2: seq<byte>, r2: seq<byte>)
    requires |m1| == |r1| && |m2| == |r2|
    requires CanTransfer(feed, from, |m1| + |m2|)
    requires CanTransfer(feed, from, |m1|) && CanTransfer(feed, PollsAfter(feed, from, |m1|), |m2|)
    ensures TransfersIo(feed, from, m1 + m2, r1 + r2)
            == TransfersIo(feed, from, m1, r1) + TransfersIo(feed, PollsAfter(feed, from, |m1|), m2, r2)
    decreases |m1|
  {
    if m1 == [] {
      assert m1 + m2 == m2 && r1 + r2 == r2;
    } else {
      var next := TransferEnd(feed, from).value;
      TailOfAppend(m1, m2);
      TailOfAppend(r1, r2);
      var head := TransferIo(feed, from, m1[0], r1[0]);
      var x := TransfersIo(feed, next, m1[1..], r1[1..]);
      var y := TransfersIo(feed, PollsAfter(feed, next, |m1| - 1), m2, r2);
      assert TransfersIo(feed, from, m1, r1) == head + x;
      assert TransfersIo(feed, from, m1 + m2, r1 + r2)
             == head + TransfersIo(feed, next, m1[1..] + m2, r1[1..] + r2);
      var n1 := |m1| - 1;
      assert |m1[1..]| == n1 && |m1| + |m2| - 1 == n1 + |m2|;
      assert CanTransfer(feed, next, n1 + |m2|);
      PollsAfterSplit(feed, next, n1, |m2|);
      TransfersIoAppend(feed, next, m1[1..], r1[1..], m2, r2);
      AppendAssoc(head, x, y);
    }
  }

  lemma TailOfAppend<T>(a: seq<T>, b: seq<T>)
    requires a != []
    ensures (a + b)[0] == a[0] && (a + b)[1..] == a[1..] + b
  {
  }

  lemma AppendAssoc<T>(a: seq<T>, b: seq<T>, c: seq<T>)
    ensures a + (b + c) == (a + b) + c
  {
  }
}
