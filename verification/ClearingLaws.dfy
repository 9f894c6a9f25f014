/**
  What users of the clearing driver get, over every history of steps by any number of openers: the bytes a write
  leaves, the count it answers, the bytes a read returns, and where each open file's offset is. All of it is stated
  from the arguments of the calls themselves and from the offsets before and after them.
 */
module ClearingLaws {
  import opened DeviceBuffer
  import opened ClearingDriver

  /** `k` is the least of the three. */
  predicate IsLeast(k: int, a: int, b: int, c: int) {
    k <= a && k <= b && k <= c && (k == a || k == b || k == c)
  }

  /** What step `j` of a history answered. */
  function ResultAt(size: nat, calls: seq<Call>, j: nat): Result
    requires j < |calls|
  {
    Step(size, Run(size, calls[..j]), calls[j]).1
  }

  /** Offset of the open file of call `i`, before the call and right after it; -1 when it is not open. */
  function OffsetBefore(size: nat, calls: seq<Call>, i: nat): int
    requires i < |calls|
  {
    var files := Run(size, calls[..i]).files;
    if calls[i].fd in files then files[calls[i].fd] else -1
  }

  function OffsetAfter(size: nat, calls: seq<Call>, i: nat): int
    requires i < |calls|
  {
    var files := Run(size, calls[..i + 1]).files;
    if calls[i].fd in files then files[calls[i].fd] else -1
  }

  lemma RunNext(size: nat, calls: seq<Call>, i: nat)
    requires i < |calls|
    ensures Run(size, calls[..i + 1]) == Step(size, Run(size, calls[..i]), calls[i]).0
  {
    More(size, calls[..i], calls[i]);
    assert calls[..i] + [calls[i]] == calls[..i + 1];
  }

  // ----- Which steps are answered

  /** What the answers of a history so far say about `fd`: not open, open, or open with a write under way. */
  datatype Session = Closed | Idle | Writing

  function SessionAt(size: nat, calls: seq<Call>, fd: nat): Session {
    if calls == [] then Closed
    else
      var m := |calls| - 1;
      var before := SessionAt(size, calls[..m], fd);
      if calls[m].fd != fd then before
      else
        match ResultAt(size, calls, m)
        case Opened => Idle
        case Stored => Writing
        case Count(_) => Idle
        case Released => Closed
        case _ => before
  }

  predicate SessionShows(s: State, fd: nat, session: Session) {
    && (fd in s.files <==> session != Closed)
    && (fd in s.pending <==> session == Writing)
  }

  lemma SessionStep(size: nat, s: State, c: Call, fd: nat, session: Session)
    requires Inv(size, s) && SessionShows(s, fd, session)
    ensures var (s', r) := Step(size, s, c);
            && SessionShows(s', fd, if c.fd != fd then session
                                    else match r case Opened => Idle case Stored => Writing case Count(_) => Idle
                                                 case Released => Closed case _ => session)
            && (c.fd == fd ==>
                  (r.Refused? <==> session != if c.Open? then Closed else if c.Record? then Writing else Idle))
  {}

  lemma {:induction false} SessionsShow(size: nat, calls: seq<Call>, fd: nat)
    ensures SessionShows(Run(size, calls), fd, SessionAt(size, calls, fd))
    decreases |calls|
  {
    if calls != [] {
      var m := |calls| - 1;
      SessionsShow(size, calls[..m], fd);
      SessionStep(size, Run(size, calls[..m]), calls[m], fd, SessionAt(size, calls[..m], fd));
    }
  }

  /**
    Only calls that users or the kernel keep from the driver are not answered: on a file that is not open or is in
    the middle of a write. At the end of the buffer, or with nothing to copy, calls are answered like any other.
   */
  lemma RefusedExactlyWhen(size: nat, calls: seq<Call>, j: nat)
    requires j < |calls|
    ensures var session := SessionAt(size, calls[..j], calls[j].fd);
            ResultAt(size, calls, j).Refused? <==>
              match calls[j]
              case Open(_) => session != Closed
              case Record(_) => session != Writing
              case _ => session != Idle
  {
    SessionsShow(size, calls[..j], calls[j].fd);
    SessionStep(size, Run(size, calls[..j]), calls[j], calls[j].fd, SessionAt(size, calls[..j], calls[j].fd));
  }

  // ----- Writes: what is stored

  /** The first bytes of `data` from `start` up to `end`, and 0 everywhere else. */
  predicate Shows(buf: seq<byte>, data: seq<byte>, start: int, end: int)
    requires 0 <= start <= end <= start + |data|
  {
    && (forall x :: 0 <= x < |buf| && start <= x < end ==> buf[x] == data[x - start])
    && (forall x :: 0 <= x < |buf| && !(start <= x < end) ==> buf[x] == 0)
  }

  /** A write, of any length and copied however far, gets as far as its data, its copy and the buffer do. */
  lemma StoreMoves(size: nat, calls: seq<Call>, i: nat)
    requires Stores(size, calls, i)
    ensures var start, end := OffsetBefore(size, calls, i), OffsetAfter(size, calls, i);
            && 0 <= start <= end <= size
            && IsLeast(end - start, calls[i].copied, |calls[i].data|, size - start)
            && Run(size, calls[..i + 1]).files == Run(size, calls[..i]).files[calls[i].fd := end]
            && Shows(Run(size, calls[..i + 1]).buf, calls[i].data, start, end)
  {
    RunNext(size, calls, i);
  }

  lemma QuietStep(size: nat, s: State, c: Call)
    requires Inv(size, s) && !(c.Store? && Ready(s, c.fd))
    ensures Step(size, s, c).0.buf == s.buf
  {}

  lemma {:induction false} BufferSince(size: nat, calls: seq<Call>, i: nat)
    requires i <= |calls| && forall j :: i <= j < |calls| ==> !Stores(size, calls, j)
    ensures Run(size, calls).buf == Run(size, calls[..i]).buf
    decreases |calls|
  {
    var m := |calls| - 1;
    if i <= m {
      forall j | i <= j < m ensures !Stores(size, calls[..m], j) { Prefix(size, calls, m, j); }
      assert !Stores(size, calls, m) && calls[..m][..i] == calls[..i];
      BufferSince(size, calls[..m], i);
      QuietStep(size, Run(size, calls[..m]), calls[m]);
    } else {
      assert calls[..i] == calls;
    }
  }

  /**
    The buffer after any history: with `i` the last write to store, the bytes from its offset before it up to its
    offset after it are the first of its data, all others are 0; it moved its offset by the least of what was
    copied, what it was given and what fitted, and no other file's offset.
   */
  lemma OnlyLastWrite(size: nat, calls: seq<Call>, i: nat)
    requires StoresLast(size, calls, i)
    ensures var start, end := OffsetBefore(size, calls, i), OffsetAfter(size, calls, i);
            && 0 <= start <= end <= size == |Run(size, calls).buf|
            && IsLeast(end - start, calls[i].copied, |calls[i].data|, size - start)
            && Run(size, calls[..i + 1]).files == Run(size, calls[..i]).files[calls[i].fd := end]
            && Shows(Run(size, calls).buf, calls[i].data, start, end)
  {
    StoreMoves(size, calls, i);
    BufferSince(size, calls, i + 1);
  }

  /** Before the first write all bytes are 0. */
  lemma NothingWritten(size: nat, calls: seq<Call>)
    requires forall i: nat :: !Stores(size, calls, i)
    ensures |Run(size, calls).buf| == size && forall x :: 0 <= x < size ==> Run(size, calls).buf[x] == 0
  {
    BufferSince(size, calls, 0);
  }

  // ----- Writes: what they answer

  lemma StoreOwes(size: nat, calls: seq<Call>, i: nat)
    requires Stores(size, calls, i)
    ensures SizeAt(size, calls, i) == OffsetAfter(size, calls, i) - OffsetBefore(size, calls, i)
  {
    RunNext(size, calls, i);
  }

  lemma RecordAnswers(size: nat, s: State, fd: nat, n: nat)
    requires Inv(size, s) && Owes(s, fd, n)
    ensures Step(size, s, Record(fd)) ==
            (s.(pending := s.pending - {fd}, shown := if 0 < n < size then n else s.shown), Count(n))
  {}

  /**
    A write that comes to its end, whatever others did meanwhile, answers how far it moved its offset, which is the
    number of its bytes the buffer then held; the node gets that number if it is at least 1 and less than the
    buffer's size, and stays as it is otherwise; nothing else changes.
   */
  lemma WriteAnswers(size: nat, calls: seq<Call>, i: nat, j: nat)
    requires Finishes(size, calls, i, j)
    ensures Stores(size, calls, i) && i < j
    ensures var start, end := OffsetBefore(size, calls, i), OffsetAfter(size, calls, i);
            var before, after := Run(size, calls[..j]), Run(size, calls[..j + 1]);
            && 0 <= start <= end <= size
            && ResultAt(size, calls, j) == Count(end - start)
            && IsLeast(end - start, calls[i].copied, |calls[i].data|, size - start)
            && Shows(Run(size, calls[..i + 1]).buf, calls[i].data, start, end)
            && after.shown == (if 0 < end - start < size then end - start else before.shown)
            && after.buf == before.buf && after.files == before.files
  {
    Prefix(size, calls, j, i);
    StoreMoves(size, calls, i);
    StoreOwes(size, calls, i);
    UnderWayIsPending(size, calls[..j], i);
    RecordAnswers(size, Run(size, calls[..j]), calls[i].fd, SizeAt(size, calls, i));
    RunNext(size, calls, j);
  }

  // ----- Reads

  /** Call `j` reads. */
  predicate Reads(size: nat, calls: seq<Call>, j: nat) {
    j < |calls| && calls[j].Read? && Ready(Run(size, calls[..j]), calls[j].fd)
  }

  /** A read returns the bytes its offset moves over, the least of three numbers of them, and changes nothing else. */
  lemma ReadAnswers(size: nat, calls: seq<Call>, j: nat)
    requires Reads(size, calls, j)
    ensures var start, end := OffsetBefore(size, calls, j), OffsetAfter(size, calls, j);
            var before, after := Run(size, calls[..j]), Run(size, calls[..j + 1]);
            && 0 <= start <= end <= size == |before.buf|
            && ResultAt(size, calls, j) == Bytes(before.buf[start..end])
            && IsLeast(end - start, calls[j].copied, calls[j].length, size - start)
            && after == before.(files := before.files[calls[j].fd := end])
  {
    RunNext(size, calls, j);
  }

  /** `OnlyLastWrite` in the middle of a history. */
  lemma LastWriteBefore(size: nat, calls: seq<Call>, i: nat, j: nat)
    requires j <= |calls| && StoresLast(size, calls[..j], i)
    ensures var start, end := OffsetBefore(size, calls, i), OffsetAfter(size, calls, i);
            && 0 <= start <= end <= start + |calls[i].data|
            && Shows(Run(size, calls[..j]).buf, calls[i].data, start, end)
  {
    OnlyLastWrite(size, calls[..j], i);
    assert calls[..j][..i] == calls[..i] && calls[..j][..i + 1] == calls[..i + 1];
  }

  /**
    So what a read returns is known from the last write to store before it, by whomever: byte for byte that write's
    data where the two overlap, and 0 elsewhere.
   */
  lemma ReadSeesLastWrite(size: nat, calls: seq<Call>, i: nat, j: nat)
    requires Reads(size, calls, j) && StoresLast(size, calls[..j], i)
    ensures var from, to := OffsetBefore(size, calls, i), OffsetAfter(size, calls, i);
            var start, end := OffsetBefore(size, calls, j), OffsetAfter(size, calls, j);
            var r := ResultAt(size, calls, j);
            && 0 <= start <= end && 0 <= from <= to <= from + |calls[i].data|
            && r.Bytes? && |r.data| == end - start
            && forall y :: 0 <= y < |r.data| ==>
                 r.data[y] == if from <= start + y < to then calls[i].data[start + y - from] else 0
  {
    ReadAnswers(size, calls, j);
    LastWriteBefore(size, calls, i, j);
  }

  // ----- Offsets

  /** Bytes that reads have returned and writes have answered on `fd` since it was last opened. */
  function Traffic(size: nat, calls: seq<Call>, fd: nat): nat {
    if calls == [] then 0
    else
      var m := |calls| - 1;
      var before := Traffic(size, calls[..m], fd);
      if calls[m].fd != fd then before
      else
        match ResultAt(size, calls, m)
        case Opened => 0
        case Bytes(data) => before + |data|
        case Count(n) => before + n
        case _ => before
  }

  function StillOwed(s: State, fd: nat): nat {
    if fd in s.pending then s.pending[fd] else 0
  }

  lemma OffsetStep(size: nat, s: State, c: Call, fd: nat, traffic: nat)
    requires Inv(size, s) && (fd in s.files ==> s.files[fd] == traffic + StillOwed(s, fd))
    ensures var (s', r) := Step(size, s, c);
            fd in s'.files ==>
              s'.files[fd] == StillOwed(s', fd) + if c.fd != fd then traffic
                                                  else if r.Opened? then 0
                                                  else if r.Bytes? then traffic + |r.data|
                                                  else if r.Count? then traffic + r.n else traffic
  {}

  /**
    Every open file's offset is the number of bytes its reads have returned and its writes have answered since it
    was opened, and those of a write still under way: nothing anyone else does moves it.
   */
  lemma {:induction false} OffsetIsTraffic(size: nat, calls: seq<Call>, fd: nat)
    requires fd in Run(size, calls).files
    ensures var s := Run(size, calls);
            s.files[fd] == Traffic(size, calls, fd) + if fd in s.pending then s.pending[fd] else 0
    decreases |calls|
  {
    if calls != [] {
      var m := |calls| - 1;
      var s := Run(size, calls[..m]);
      if fd in s.files { OffsetIsTraffic(size, calls[..m], fd); }
      OffsetStep(size, s, calls[m], fd, Traffic(size, calls[..m], fd));
    }
  }
}
