/**
  The character driver that clears its buffer on every write, may be opened by anyone, and shows the size of the
  last write in a node of a circular list, over a buffer of any size.

  Each open file has its own offset. A write is two steps, because the driver gives its semaphore back before it
  prints: it clears, copies and moves the offset under the semaphore (`Store`), and only later looks up the node
  and prints the size into it (`Record`). Anything other openers do can come in between.
 */
module ClearingDriver {
  import opened Options
  import opened DeviceBuffer
  import opened NodeText
  import CircularList

  /** `pending` has the size still to be printed by each open file whose write is under way. */
  datatype State = State(buf: seq<byte>, files: map<nat, nat>, pending: map<nat, nat>, shown: nat)

  datatype Call =
    | Open(fd: nat)
    | Read(fd: nat, length: nat, copied: nat)
    | Store(fd: nat, data: seq<byte>, copied: nat)
    | Record(fd: nat)
    | Release(fd: nat)

  /** `Refused` for a step its open file is not ready for; a write answers when it has recorded. */
  datatype Result = Opened | Bytes(data: seq<byte>) | Stored | Count(n: nat) | Released | Refused

  function Init(size: nat): State {
    State(Zeros(size), map[], map[], 0)
  }

  predicate Inv(size: nat, s: State) {
    |s.buf| == size && (forall fd <- s.files :: s.files[fd] <= size) && s.pending.Keys <= s.files.Keys
  }

  /** Open, with no write under way. */
  predicate Ready(s: State, fd: nat) {
    fd in s.files && fd !in s.pending
  }

  /** `scull_write` updates the node's text only for these sizes. */
  predicate Recorded(size: nat, written: nat) {
    0 < written < size
  }

  /** The bytes that a write stores. */
  function Taken(size: nat, s: State, c: Call): (data: seq<byte>)
    requires Inv(size, s) && c.Store? && Ready(s, c.fd)
    ensures s.files[c.fd] + |data| <= size
  {
    c.data[..Min(c.copied, Room(size, s.files[c.fd], |c.data|))]
  }

  /** What a short copy from user space leaves in the part it did not reach is zero either way here. */
  function Step(size: nat, s: State, c: Call): (r: (State, Result))
    requires Inv(size, s)
    ensures Inv(size, r.0)
  {
    match c
    case Open(fd) => if fd in s.files then (s, Refused) else (s.(files := s.files[fd := 0]), Opened)
    case Read(fd, length, copied) =>
      if !Ready(s, fd) then (s, Refused)
      else
        var pos := s.files[fd];
        var k := Min(copied, Room(size, pos, length));
        (s.(files := s.files[fd := pos + k]), Bytes(s.buf[pos..pos + k]))
    case Store(fd, _, _) =>
      if !Ready(s, fd) then (s, Refused)
      else
        var pos, data := s.files[fd], Taken(size, s, c);
        (State(Overlay(Zeros(size), pos, data), s.files[fd := pos + |data|], s.pending[fd := |data|], s.shown), Stored)
    case Record(fd) =>
      if fd !in s.pending then (s, Refused)
      else
        var n := s.pending[fd];
        (s.(pending := s.pending - {fd}, shown := if Recorded(size, n) then n else s.shown), Count(n))
    case Release(fd) => if !Ready(s, fd) then (s, Refused) else (s.(files := s.files - {fd}), Released)
  }

  /** The state after a history of steps by any number of openers. */
  function Run(size: nat, calls: seq<Call>): (s: State)
    ensures Inv(size, s)
  {
    if calls == [] then Init(size) else Step(size, Run(size, calls[..|calls| - 1]), calls[|calls| - 1]).0
  }

  // ----- The last write

  /** The bytes a write stored and where; `Never` before the first write. */
  datatype Window = Never | At(start: nat, data: seq<byte>)

  /** What the last write of a history stored. */
  function LastWrite(size: nat, calls: seq<Call>): Window {
    if calls == [] then Never
    else
      var front, c := calls[..|calls| - 1], calls[|calls| - 1];
      var s := Run(size, front);
      if c.Store? && Ready(s, c.fd) then At(s.files[c.fd], Taken(size, s, c)) else LastWrite(size, front)
  }

  /** A write at the end of the buffer stores nothing, returns 0, and still clears everything. */
  lemma WriteAtEnd(size: nat, s: State, c: Call)
    requires Inv(size, s) && c.Store? && Ready(s, c.fd) && s.files[c.fd] == size
    ensures Step(size, Step(size, s, c).0, Record(c.fd)) == (s.(buf := Zeros(size)), Count(0))
  {
    OverlayNothing(Zeros(size), size);
    assert c.data[..0] == [];
    assert s.files[c.fd := size] == s.files;
    assert s.pending[c.fd := 0] - {c.fd} == s.pending;
  }

  // ----- Writes as pairs of positions in a history

  /** Call `i` stores. */
  predicate Stores(size: nat, calls: seq<Call>, i: nat) {
    i < |calls| && calls[i].Store? && Ready(Run(size, calls[..i]), calls[i].fd)
  }

  /** How many bytes call `i` stores. */
  function SizeAt(size: nat, calls: seq<Call>, i: nat): nat
    requires Stores(size, calls, i)
  {
    |Taken(size, Run(size, calls[..i]), calls[i])|
  }

  predicate StoresLast(size: nat, calls: seq<Call>, i: nat) {
    Stores(size, calls, i) && forall j :: i < j < |calls| ==> !Stores(size, calls, j)
  }

  /** The write that stored at `i` has not come to its end. */
  predicate UnderWay(size: nat, calls: seq<Call>, i: nat) {
    Stores(size, calls, i) && forall k :: i < k < |calls| ==> calls[k] != Record(calls[i].fd)
  }

  /** The write that stored at `i` comes to its end at `j`. */
  predicate Finishes(size: nat, calls: seq<Call>, i: nat, j: nat) {
    j < |calls| && UnderWay(size, calls[..j], i) && calls[j] == Record(calls[i].fd)
  }

  /** And prints its size into the node. */
  predicate Prints(size: nat, calls: seq<Call>, i: nat, j: nat) {
    Finishes(size, calls, i, j) && 0 < SizeAt(size, calls[..j], i) < size
  }

  ghost predicate PrintsLast(size: nat, calls: seq<Call>, i: nat, j: nat) {
    Prints(size, calls, i, j) && forall i': nat, j': nat :: Prints(size, calls, i', j') ==> j' <= j
  }

  lemma Prefix(size: nat, calls: seq<Call>, m: nat, i: nat)
    requires i < m <= |calls|
    ensures Stores(size, calls[..m], i) <==> Stores(size, calls, i)
    ensures Stores(size, calls, i) ==> SizeAt(size, calls[..m], i) == SizeAt(size, calls, i)
  {
    assert calls[..m][..i] == calls[..i];
  }

  lemma PrefixFinishes(size: nat, calls: seq<Call>, m: nat, i: nat, j: nat)
    requires j < m <= |calls|
    ensures Finishes(size, calls[..m], i, j) <==> Finishes(size, calls, i, j)
    ensures Prints(size, calls[..m], i, j) <==> Prints(size, calls, i, j)
  {
    assert calls[..m][..j] == calls[..j];
  }

  /** The open file has `n` bytes still to print. */
  predicate Owes(s: State, fd: nat, n: nat) {
    fd in s.pending && s.pending[fd] == n
  }

  lemma PendingStays(size: nat, s: State, c: Call, fd: nat, n: nat)
    requires Inv(size, s) && Owes(s, fd, n) && c != Record(fd)
    ensures Owes(Step(size, s, c).0, fd, n)
  {}

  lemma PendingFrom(size: nat, s: State, c: Call, fd: nat)
    requires Inv(size, s) && fd in Step(size, s, c).0.pending
    ensures c != Record(fd) && (fd !in s.pending ==> c.Store? && c.fd == fd && Ready(s, fd))
  {}

  lemma StoreAdds(size: nat, s: State, c: Call)
    requires Inv(size, s) && c.Store? && Ready(s, c.fd)
    ensures |Step(size, s, c).0.pending| == |s.pending| + 1
  {
    var s' := Step(size, s, c).0;
    assert s'.pending.Keys == s.pending.Keys + {c.fd};
    assert |s'.pending.Keys| == |s.pending.Keys| + 1;
  }

  lemma StorePends(size: nat, calls: seq<Call>, i: nat)
    requires Stores(size, calls, i) && i == |calls| - 1
    ensures Owes(Run(size, calls), calls[i].fd, SizeAt(size, calls, i))
  {}

  /** While a write is under way its open file has its size still to print. */
  lemma {:induction false} UnderWayIsPending(size: nat, calls: seq<Call>, i: nat)
    requires UnderWay(size, calls, i)
    ensures Owes(Run(size, calls), calls[i].fd, SizeAt(size, calls, i))
    decreases |calls|
  {
    var m := |calls| - 1;
    if i == m {
      StorePends(size, calls, i);
    } else {
      Prefix(size, calls, m, i);
      UnderWayIsPending(size, calls[..m], i);
      PendingStays(size, Run(size, calls[..m]), calls[m], calls[i].fd, SizeAt(size, calls, i));
    }
  }

  lemma {:induction false} PendingIsUnderWay(size: nat, calls: seq<Call>, fd: nat) returns (i: nat)
    requires fd in Run(size, calls).pending
    ensures UnderWay(size, calls, i) && calls[i].fd == fd
    decreases |calls|
  {
    i := |calls| - 1;
    var front := calls[..i];
    PendingFrom(size, Run(size, front), calls[i], fd);
    if fd in Run(size, front).pending {
      var m := i;
      i := PendingIsUnderWay(size, front, fd);
      Prefix(size, calls, m, i);
    }
  }

  // ----- What the node shows

  /** Bytes the last write of a history stored; 0 before the first. */
  function LastCount(size: nat, calls: seq<Call>): nat {
    match LastWrite(size, calls) case Never => 0 case At(_, data) => |data|
  }

  lemma {:induction false} LastCountIs(size: nat, calls: seq<Call>, i: nat)
    requires StoresLast(size, calls, i)
    ensures LastCount(size, calls) == SizeAt(size, calls, i)
    decreases |calls|
  {
    var m := |calls| - 1;
    if i < m {
      Prefix(size, calls, m, i);
      forall j | i < j < m ensures !Stores(size, calls[..m], j) { Prefix(size, calls, m, j); }
      assert !Stores(size, calls, m);
      LastCountIs(size, calls[..m], i);
    }
  }

  lemma {:induction false} SomeStoresLast(size: nat, calls: seq<Call>) returns (i: nat)
    ensures StoresLast(size, calls, i) || (LastCount(size, calls) == 0 && forall j :: !Stores(size, calls, j))
  {
    i := 0;
    if calls != [] {
      var m := |calls| - 1;
      if Stores(size, calls, m) {
        i := m;
      } else {
        i := SomeStoresLast(size, calls[..m]);
        forall j | 0 <= j < m ensures Stores(size, calls, j) <==> Stores(size, calls[..m], j) {
          Prefix(size, calls, m, j);
        }
      }
    }
  }

  lemma PrintingStep(size: nat, calls: seq<Call>, i: nat)
    requires calls != [] && Prints(size, calls, i, |calls| - 1)
    ensures Stores(size, calls, i) && Run(size, calls).shown == SizeAt(size, calls, i)
  {
    var m := |calls| - 1;
    UnderWayIsPending(size, calls[..m], i);
    Prefix(size, calls, m, i);
  }

  /** A record step that changes the text ends some write. */
  lemma RecordPrints(size: nat, calls: seq<Call>, m: nat) returns (i: nat)
    requires |calls| == m + 1 && calls[m].Record?
    requires var s := Run(size, calls[..m]); calls[m].fd in s.pending && Recorded(size, s.pending[calls[m].fd])
    ensures Prints(size, calls, i, m)
  {
    i := PendingIsUnderWay(size, calls[..m], calls[m].fd);
    UnderWayIsPending(size, calls[..m], i);
  }

  lemma OtherStep(size: nat, calls: seq<Call>, m: nat)
    requires |calls| == m + 1 && forall i: nat :: !Prints(size, calls, i, m)
    ensures Run(size, calls).shown == Run(size, calls[..m]).shown
  {
    var s := Run(size, calls[..m]);
    if calls[m].Record? && calls[m].fd in s.pending && Recorded(size, s.pending[calls[m].fd]) {
      var i := RecordPrints(size, calls, m);
    }
  }

  ghost predicate NothingPrinted(size: nat, calls: seq<Call>) {
    forall i: nat, j: nat :: !Prints(size, calls, i, j)
  }

  lemma FrontPrints(size: nat, calls: seq<Call>, m: nat)
    requires |calls| == m + 1 && forall i: nat :: !Prints(size, calls, i, m)
    ensures forall i: nat, j: nat :: Prints(size, calls[..m], i, j) <==> Prints(size, calls, i, j)
  {
    forall i: nat, j: nat ensures Prints(size, calls[..m], i, j) <==> Prints(size, calls, i, j) {
      if j < m { PrefixFinishes(size, calls, m, i, j); }
    }
  }

  lemma {:induction false} LastPrinted(size: nat, calls: seq<Call>, i: nat, j: nat)
    requires PrintsLast(size, calls, i, j)
    ensures Stores(size, calls, i) && Run(size, calls).shown == SizeAt(size, calls, i)
    decreases |calls|
  {
    var m := |calls| - 1;
    if j == m {
      PrintingStep(size, calls, i);
    } else {
      FrontPrints(size, calls, m);
      LastPrinted(size, calls[..m], i, j);
      OtherStep(size, calls, m);
      Prefix(size, calls, m, i);
    }
  }

  /** The proc file tells the truth: it shows the number of bytes last written. */
  predicate Truthful(size: nat, calls: seq<Call>) {
    Run(size, calls).shown == LastCount(size, calls)
  }

  predicate StoresAsMany(size: nat, calls: seq<Call>, i: nat, n: nat) {
    Stores(size, calls, i) && SizeAt(size, calls, i) == n
  }

  lemma {:induction false} NothingShown(size: nat, calls: seq<Call>)
    requires NothingPrinted(size, calls)
    ensures Run(size, calls).shown == 0
    decreases |calls|
  {
    if calls != [] {
      var m := |calls| - 1;
      FrontPrints(size, calls, m);
      NothingShown(size, calls[..m]);
      OtherStep(size, calls, m);
    }
  }

  /** A history in which something was printed has a last print. */
  lemma {:induction false} SomePrintsLast(size: nat, calls: seq<Call>) returns (i: nat, j: nat)
    requires !NothingPrinted(size, calls)
    ensures PrintsLast(size, calls, i, j)
    decreases |calls|
  {
    var m := |calls| - 1;
    if i': nat :| Prints(size, calls, i', m) {
      i, j := i', m;
    } else {
      FrontPrints(size, calls, m);
      i, j := SomePrintsLast(size, calls[..m]);
    }
  }

  /** The node shows what was printed last: the size of that write, or the initial 0. */
  lemma ShownIsPrinted(size: nat, calls: seq<Call>) returns (i: nat, j: nat)
    ensures if NothingPrinted(size, calls) then Run(size, calls).shown == 0
            else PrintsLast(size, calls, i, j) && StoresAsMany(size, calls, i, Run(size, calls).shown)
  {
    i, j := 0, 0;
    if NothingPrinted(size, calls) {
      NothingShown(size, calls);
    } else {
      i, j := SomePrintsLast(size, calls);
      LastPrinted(size, calls, i, j);
    }
  }

  /**
    The node is meant to show the number of bytes last written. After any history, however the writes overlap, it
    does if and only if the write that printed last stored as many bytes as the last to store (which it may be
    itself), or no write has printed and the last one stored nothing.
   */
  lemma NodeIsTruthful(size: nat, calls: seq<Call>)
    ensures var n := LastCount(size, calls);
            Truthful(size, calls) <==>
              || (exists i: nat, j: nat :: PrintsLast(size, calls, i, j) && StoresAsMany(size, calls, i, n))
              || (n == 0 && NothingPrinted(size, calls))
  {
    forall i: nat, j: nat | PrintsLast(size, calls, i, j)
      ensures Stores(size, calls, i) && Run(size, calls).shown == SizeAt(size, calls, i)
    {
      LastPrinted(size, calls, i, j);
    }
    var i, j := ShownIsPrinted(size, calls);
  }

  /** When no two writes store equally many bytes, only who printed last and who stored last matters. */
  lemma LastPrinterDecides(size: nat, calls: seq<Call>)
    requires forall i: nat, j: nat :: Stores(size, calls, i) && Stores(size, calls, j) && i != j ==>
               SizeAt(size, calls, i) != SizeAt(size, calls, j)
    ensures Truthful(size, calls) <==>
              || (exists i: nat, j: nat :: PrintsLast(size, calls, i, j) && StoresLast(size, calls, i))
              || (LastCount(size, calls) == 0 && NothingPrinted(size, calls))
  {
    NodeIsTruthful(size, calls);
    var n := LastCount(size, calls);
    forall i: nat | StoresLast(size, calls, i) ensures StoresAsMany(size, calls, i, n) {
      LastCountIs(size, calls, i);
    }
    if i: nat, j: nat :| PrintsLast(size, calls, i, j) && StoresAsMany(size, calls, i, n) {
      var last := SomeStoresLast(size, calls);
      LastCountIs(size, calls, last);
    }
  }

  lemma More(size: nat, calls: seq<Call>, c: Call)
    ensures Run(size, calls + [c]) == Step(size, Run(size, calls), c).0
    ensures LastWrite(size, calls + [c]) ==
            if Stores(size, calls + [c], |calls|)
            then At(Run(size, calls).files[c.fd], Taken(size, Run(size, calls), c))
            else LastWrite(size, calls)
  {
    assert (calls + [c])[..|calls|] == calls;
  }

  /** A concrete failure: a first write that fills the buffer is shown as 0 bytes. */
  lemma FullWriteIsNotShown(size: nat)
    requires 0 < size
    ensures var calls := [Open(0), Store(0, Zeros(size), size), Record(0)];
            LastCount(size, calls) == size && Run(size, calls).shown == 0
  {
    var store := Store(0, Zeros(size), size);
    More(size, [], Open(0));
    More(size, [Open(0)], store);
    More(size, [Open(0), store], Record(0));
    assert [] + [Open(0)] == [Open(0)] && [Open(0)] + [store] == [Open(0), store];
    assert [Open(0), store] + [Record(0)] == [Open(0), store, Record(0)];
    assert Zeros(size)[..size] == Zeros(size);
  }

  /** Two openers whose writes overlap: the second to store is the first to print. */
  function BothStored(x: seq<byte>, y: seq<byte>): seq<Call> {
    [Open(0)] + [Open(1)] + [Store(0, x, |x|)] + [Store(1, y, |y|)]
  }

  function Overlapping(x: seq<byte>, y: seq<byte>): seq<Call> {
    BothStored(x, y) + [Record(1)] + [Record(0)]
  }

  lemma BothStoredRun(size: nat, x: seq<byte>, y: seq<byte>)
    requires |x| <= size && |y| <= size
    ensures var s := Run(size, BothStored(x, y)); s.pending == map[0 := |x|, 1 := |y|] && s.shown == 0
    ensures LastWrite(size, BothStored(x, y)) == At(0, y)
  {
    More(size, [], Open(0));
    assert [] + [Open(0)] == [Open(0)];
    More(size, [Open(0)], Open(1));
    var both := [Open(0)] + [Open(1)];
    assert x[..|x|] == x && y[..|y|] == y;
    More(size, both, Store(0, x, |x|));
    More(size, both + [Store(0, x, |x|)], Store(1, y, |y|));
  }

  /** The other concrete failure: both sizes are of the recorded kind, yet the node shows the earlier write's. */
  lemma OverlapShowsTheEarlier(size: nat, x: seq<byte>, y: seq<byte>)
    requires Recorded(size, |x|) && Recorded(size, |y|)
    ensures var calls := Overlapping(x, y);
            && Run(size, calls).pending == map[]
            && LastCount(size, calls) == |y| && Run(size, calls).shown == |x|
  {
    BothStoredRun(size, x, y);
    More(size, BothStored(x, y), Record(1));
    More(size, BothStored(x, y) + [Record(1)], Record(0));
  }

  // ----- Writes that do not overlap

  predicate OneAtATime(size: nat, calls: seq<Call>) {
    forall i :: 0 <= i < |calls| && Stores(size, calls, i) ==> Run(size, calls[..i]).pending == map[]
  }

  /** A write that stored and is not under way any more has come to its end. */
  lemma {:induction false} Finished(size: nat, calls: seq<Call>, i: nat) returns (j: nat)
    requires Stores(size, calls, i) && !UnderWay(size, calls, i)
    ensures Finishes(size, calls, i, j)
    decreases |calls|
  {
    j := |calls| - 1;
    if i < j { Prefix(size, calls, j, i); }
    if i >= j || !UnderWay(size, calls[..j], i) {
      var m := j;
      j := Finished(size, calls[..m], i);
      PrefixFinishes(size, calls, m, i, j);
    }
  }

  /** In a quiet moment after writes that did not overlap, nothing is printed after the last write's end. */
  lemma LastToFinish(size: nat, calls: seq<Call>, i: nat, j: nat, i': nat, j': nat)
    requires OneAtATime(size, calls)
    requires StoresLast(size, calls, i) && Finishes(size, calls, i, j) && Finishes(size, calls, i', j')
    ensures j' <= j
  {
    Prefix(size, calls, j', i');
    if j < j' {
      assert i' <= i;
      if i' < i {
        assert calls[..j'][..i] == calls[..i];
        Prefix(size, calls, i, i');
        assert UnderWay(size, calls[..i], i');
        UnderWayIsPending(size, calls[..i], i');
      }
    }
  }

  /**
    When writes do not overlap and none is under way, the node tells the truth if and only if the last write stored
    at least one byte and less than a full buffer, or stored none and no write of the history stored such a size.
   */
  lemma SerialWritesAreShown(size: nat, calls: seq<Call>)
    requires OneAtATime(size, calls) && Run(size, calls).pending == map[]
    ensures var n := LastCount(size, calls);
            Truthful(size, calls) <==>
              || 0 < n < size
              || (n == 0 && forall i: nat :: Stores(size, calls, i) ==> SizeAt(size, calls, i) in {0, size})
  {
    forall i: nat | Stores(size, calls, i) ensures exists j: nat :: Finishes(size, calls, i, j) {
      if UnderWay(size, calls, i) { UnderWayIsPending(size, calls, i); }
      var j := Finished(size, calls, i);
    }
    forall i: nat, j: nat | Finishes(size, calls, i, j)
      ensures Stores(size, calls, i) && (Prints(size, calls, i, j) <==> Recorded(size, SizeAt(size, calls, i)))
    {
      Prefix(size, calls, j, i);
    }
    var n := LastCount(size, calls);
    var i := SomeStoresLast(size, calls);
    NodeIsTruthful(size, calls);
    if Recorded(size, n) {
      LastCountIs(size, calls, i);
      var j: nat :| Finishes(size, calls, i, j);
      forall i': nat, j': nat | Prints(size, calls, i', j') ensures j' <= j {
        LastToFinish(size, calls, i, j, i', j');
      }
      assert PrintsLast(size, calls, i, j);
    } else {
      var i', j' := ShownIsPrinted(size, calls);
    }
  }

  /** At no time are more than `m` writes under way. */
  predicate AtMost(size: nat, calls: seq<Call>, m: nat) {
    forall k :: 0 <= k <= |calls| ==> |Run(size, calls[..k]).pending| <= m
  }

  /** Writes store only as many bytes as `sizes` has. */
  predicate StoresOnly(size: nat, calls: seq<Call>, sizes: set<nat>) {
    forall i :: 0 <= i < |calls| && Stores(size, calls, i) ==> SizeAt(size, calls, i) in sizes
  }

  /** With at most one write under way at any time, writes do not overlap. */
  lemma AtMostOne(size: nat, calls: seq<Call>)
    requires AtMost(size, calls, 1)
    ensures OneAtATime(size, calls)
  {
    forall i | 0 <= i < |calls| && Stores(size, calls, i) ensures Run(size, calls[..i]).pending == map[] {
      assert calls[..i + 1][..i] == calls[..i];
      StoreAdds(size, Run(size, calls[..i]), calls[i]);
      assert |Run(size, calls[..i + 1]).pending| <= 1;
    }
  }

  lemma AtMostMore(size: nat, calls: seq<Call>, c: Call, m: nat)
    requires AtMost(size, calls, m) && |Run(size, calls + [c]).pending| <= m
    ensures AtMost(size, calls + [c], m)
  {
    var more := calls + [c];
    forall k | 0 <= k <= |more| ensures |Run(size, more[..k]).pending| <= m {
      assert more[..k] == if k <= |calls| then calls[..k] else more;
    }
  }

  lemma StoresOnlyMore(size: nat, calls: seq<Call>, c: Call, sizes: set<nat>)
    requires StoresOnly(size, calls, sizes)
    requires var s := Run(size, calls); c.Store? && Ready(s, c.fd) ==> |Taken(size, s, c)| in sizes
    ensures StoresOnly(size, calls + [c], sizes)
  {
    var more := calls + [c];
    assert more[..|calls|] == calls;
    forall i | 0 <= i < |more| && Stores(size, more, i) ensures SizeAt(size, more, i) in sizes {
      if i < |calls| { Prefix(size, more, |calls|, i); }
    }
  }

  /** What users agree on: how many write at a time, and how much. */
  datatype Rule = Rule(m: nat, sizes: set<nat>)

  predicate Obeys(size: nat, calls: seq<Call>, rule: Rule) {
    AtMost(size, calls, rule.m) && StoresOnly(size, calls, rule.sizes)
  }

  lemma ObeysMore(size: nat, calls: seq<Call>, c: Call, rule: Rule) returns (more: seq<Call>)
    requires Obeys(size, calls, rule)
    requires |Step(size, Run(size, calls), c).0.pending| <= rule.m
    requires var s := Run(size, calls); c.Store? && Ready(s, c.fd) ==> |Taken(size, s, c)| in rule.sizes
    ensures more == calls + [c] && Obeys(size, more, rule) && Run(size, more) == Step(size, Run(size, calls), c).0
    ensures LastWrite(size, more) ==
            if c.Store? && Ready(Run(size, calls), c.fd)
            then At(Run(size, calls).files[c.fd], Taken(size, Run(size, calls), c))
            else LastWrite(size, calls)
  {
    more := calls + [c];
    assert more[..|calls|] == calls;
    More(size, calls, c);
    AtMostMore(size, calls, c, rule.m);
    StoresOnlyMore(size, calls, c, rule.sizes);
  }

  lemma StartOpen(size: nat, rule: Rule) returns (calls: seq<Call>)
    ensures Obeys(size, calls, rule) && Run(size, calls) == Init(size).(files := map[0 := 0])
  {
    calls := ObeysMore(size, [], Open(0), rule);
  }

  lemma StoreAlone(size: nat, s: State, fd: nat, k: nat)
    requires Inv(size, s) && fd in s.files && s.files[fd] + k <= size && s.pending == map[]
    ensures Taken(size, s, Store(fd, Zeros(k), k)) == Zeros(k)
    ensures var s' := Step(size, s, Store(fd, Zeros(k), k)).0;
            s'.pending == map[fd := k] && s'.files == s.files[fd := s.files[fd] + k] && s'.shown == s.shown
  {
    assert Zeros(k)[..k] == Zeros(k);
  }

  lemma RecordAlone(size: nat, s: State, fd: nat, k: nat)
    requires Inv(size, s) && s.pending == map[fd := k]
    ensures Step(size, s, Record(fd)).0 == s.(pending := map[], shown := if Recorded(size, k) then k else s.shown)
  {
    assert s.pending - {fd} == map[];
  }

  lemma BeginWrite(size: nat, calls: seq<Call>, fd: nat, k: nat, rule: Rule) returns (more: seq<Call>)
    requires Obeys(size, calls, rule) && 0 < rule.m && k in rule.sizes
    requires var s := Run(size, calls); fd in s.files && s.files[fd] + k <= size && s.pending == map[]
    ensures Obeys(size, more, rule) && LastCount(size, more) == k
    ensures var s, s' := Run(size, calls), Run(size, more);
            s'.pending == map[fd := k] && s'.files == s.files[fd := s.files[fd] + k] && s'.shown == s.shown
  {
    StoreAlone(size, Run(size, calls), fd, k);
    more := ObeysMore(size, calls, Store(fd, Zeros(k), k), rule);
  }

  lemma EndWrite(size: nat, calls: seq<Call>, fd: nat, k: nat, rule: Rule) returns (more: seq<Call>)
    requires Obeys(size, calls, rule) && Run(size, calls).pending == map[fd := k]
    ensures Obeys(size, more, rule) && LastCount(size, more) == LastCount(size, calls)
    ensures var s := Run(size, calls);
            Run(size, more) == s.(pending := map[], shown := if Recorded(size, k) then k else s.shown)
  {
    RecordAlone(size, Run(size, calls), fd, k);
    more := ObeysMore(size, calls, Record(fd), rule);
  }

  /** A whole write of `k` zeros, alone. */
  lemma OneWrite(size: nat, calls: seq<Call>, fd: nat, k: nat, rule: Rule) returns (more: seq<Call>)
    requires Obeys(size, calls, rule) && 0 < rule.m && k in rule.sizes
    requires var s := Run(size, calls); fd in s.files && s.files[fd] + k <= size && s.pending == map[]
    ensures Obeys(size, more, rule) && LastCount(size, more) == k
    ensures var s, s' := Run(size, calls), Run(size, more);
            && s'.pending == map[] && s'.files == s.files[fd := s.files[fd] + k]
            && s'.shown == if Recorded(size, k) then k else s.shown
  {
    more := BeginWrite(size, calls, fd, k, rule);
    more := EndWrite(size, more, fd, k, rule);
  }

  lemma FullWriteMisleads(size: nat, rule: Rule) returns (calls: seq<Call>)
    requires 0 < rule.m && 0 < size && size in rule.sizes
    ensures Obeys(size, calls, rule) && Run(size, calls).pending == map[] && !Truthful(size, calls)
  {
    calls := StartOpen(size, rule);
    calls := OneWrite(size, calls, 0, size, rule);
  }

  lemma EmptyWriteMisleads(size: nat, k: nat, rule: Rule) returns (calls: seq<Call>)
    requires 0 < rule.m && Recorded(size, k) && {0, k} <= rule.sizes
    ensures Obeys(size, calls, rule) && Run(size, calls).pending == map[] && !Truthful(size, calls)
  {
    calls := StartOpen(size, rule);
    calls := OneWrite(size, calls, 0, k, rule);
    calls := OneWrite(size, calls, 0, 0, rule);
  }

  lemma OverlapStored(size: nat, j: nat, k: nat, rule: Rule) returns (calls: seq<Call>)
    requires 1 < rule.m && j <= size && k <= size && {j, k} <= rule.sizes
    ensures calls == BothStored(Zeros(j), Zeros(k)) && Obeys(size, calls, rule)
  {
    assert Zeros(j)[..j] == Zeros(j) && Zeros(k)[..k] == Zeros(k);
    calls := ObeysMore(size, [], Open(0), rule);
    calls := ObeysMore(size, calls, Open(1), rule);
    calls := ObeysMore(size, calls, Store(0, Zeros(j), j), rule);
    assert Run(size, calls).pending == map[0 := j];
    assert |Run(size, calls).pending[1 := k]| == 2;
    calls := ObeysMore(size, calls, Store(1, Zeros(k), k), rule);
    assert [] + [Open(0)] == [Open(0)];
  }

  lemma OverlapMisleads(size: nat, j: nat, k: nat, rule: Rule) returns (calls: seq<Call>)
    requires 1 < rule.m && Recorded(size, j) && Recorded(size, k) && j != k && {j, k} <= rule.sizes
    ensures Obeys(size, calls, rule) && Run(size, calls).pending == map[] && !Truthful(size, calls)
  {
    calls := OverlapStored(size, j, k, rule);
    BothStoredRun(size, Zeros(j), Zeros(k));
    assert map[0 := j, 1 := k] - {1} == map[0 := j];
    calls := ObeysMore(size, calls, Record(1), rule);
    calls := ObeysMore(size, calls, Record(0), rule);
    OverlapShowsTheEarlier(size, Zeros(j), Zeros(k));
  }

  /** Writers keep to sizes that are printed, and one at a time unless they all write equally much; or write nothing. */
  predicate Careful(size: nat, rule: Rule) {
    || rule.m == 0
    || rule.sizes <= {0}
    || ((forall k <- rule.sizes :: 0 < k < size) && (rule.m <= 1 || |rule.sizes| <= 1))
  }

  lemma NothingStored(size: nat, calls: seq<Call>)
    requires AtMost(size, calls, 0)
    ensures forall i: nat :: !Stores(size, calls, i)
  {
    forall i: nat ensures !Stores(size, calls, i) {
      if i < |calls| { assert |Run(size, calls[..i + 1]).pending| <= 0 && calls[..i + 1][..i] == calls[..i]; }
      if Stores(size, calls, i) { StoreAdds(size, Run(size, calls[..i]), calls[i]); }
    }
  }

  lemma PrintsStores(size: nat, calls: seq<Call>, i: nat, j: nat)
    requires Prints(size, calls, i, j)
    ensures Stores(size, calls, i) && Recorded(size, SizeAt(size, calls, i))
  {
    Prefix(size, calls, j, i);
  }

  lemma NeverPrinted(size: nat, calls: seq<Call>)
    requires StoresOnly(size, calls, {0})
    ensures Truthful(size, calls)
  {
    forall i: nat, j: nat ensures !Prints(size, calls, i, j) {
      if Prints(size, calls, i, j) { PrintsStores(size, calls, i, j); }
    }
    NothingShown(size, calls);
    var i := SomeStoresLast(size, calls);
    if StoresLast(size, calls, i) { LastCountIs(size, calls, i); }
  }

  /** In a quiet moment the last write to store has printed, if its size is of the recorded kind. */
  lemma LastWriteHasPrinted(size: nat, calls: seq<Call>, i: nat) returns (j: nat)
    requires StoresLast(size, calls, i) && Run(size, calls).pending == map[]
    requires Recorded(size, SizeAt(size, calls, i))
    ensures Prints(size, calls, i, j) && LastCount(size, calls) == SizeAt(size, calls, i)
  {
    LastCountIs(size, calls, i);
    if UnderWay(size, calls, i) { UnderWayIsPending(size, calls, i); }
    j := Finished(size, calls, i);
    Prefix(size, calls, j, i);
  }

  lemma AllOfOneSize(size: nat, calls: seq<Call>, sizes: set<nat>)
    requires StoresOnly(size, calls, sizes) && |sizes| <= 1 && Run(size, calls).pending == map[]
    requires forall k <- sizes :: Recorded(size, k)
    ensures Truthful(size, calls)
  {
    var last := SomeStoresLast(size, calls);
    var i, j := ShownIsPrinted(size, calls);
    if StoresLast(size, calls, last) {
      var j' := LastWriteHasPrinted(size, calls, last);
      var a, b := SizeAt(size, calls, last), SizeAt(size, calls, i);
      assert {a, b} <= sizes;
      if a != b { SubsetSize({a, b}, sizes); }
    } else if !NothingPrinted(size, calls) {
      PrintsStores(size, calls, i, j);
    }
  }

  lemma {:induction false} SubsetSize(some: set<nat>, all: set<nat>)
    requires some <= all
    ensures |some| <= |all|
    decreases |some|
  {
    if some != {} {
      var x :| x in some;
      SubsetSize(some - {x}, all - {x});
    }
  }

  lemma CarefulIsRight(size: nat, calls: seq<Call>, rule: Rule)
    requires Obeys(size, calls, rule) && Careful(size, rule) && Run(size, calls).pending == map[]
    ensures Truthful(size, calls)
  {
    if rule.m == 0 {
      NothingStored(size, calls);
      NeverPrinted(size, calls);
    } else if rule.sizes <= {0} {
      NeverPrinted(size, calls);
    } else if |rule.sizes| <= 1 {
      AllOfOneSize(size, calls, rule.sizes);
    } else {
      AtMostOne(size, calls);
      SerialWritesAreShown(size, calls);
      var i := SomeStoresLast(size, calls);
      if StoresLast(size, calls, i) { LastCountIs(size, calls, i); }
    }
  }

  lemma CarelessMisleads(size: nat, rule: Rule) returns (calls: seq<Call>)
    requires !Careful(size, rule) && forall k <- rule.sizes :: k <= size
    ensures Obeys(size, calls, rule) && Run(size, calls).pending == map[] && !Truthful(size, calls)
  {
    if size in rule.sizes && size > 0 {
      calls := FullWriteMisleads(size, rule);
    } else if 0 in rule.sizes {
      var k :| k in rule.sizes && k != 0;
      calls := EmptyWriteMisleads(size, k, rule);
    } else {
      var j :| j in rule.sizes;
      assert rule.sizes != {j};
      var k :| k in rule.sizes && k != j;
      calls := OverlapMisleads(size, j, k, rule);
    }
  }

  /** The rule without the sizes that do not fit the buffer: nothing stores so many bytes. */
  function Fitting(size: nat, rule: Rule): Rule {
    rule.(sizes := set k | k in rule.sizes && k <= size)
  }

  lemma FittingIsObeyed(size: nat, calls: seq<Call>, rule: Rule)
    ensures Obeys(size, calls, rule) <==> Obeys(size, calls, Fitting(size, rule))
  {
    forall i | 0 <= i < |calls| && Stores(size, calls, i) ensures SizeAt(size, calls, i) <= size {
      assert Run(size, calls[..i]).files[calls[i].fd] + SizeAt(size, calls, i) <= size;
    }
  }

  /** Users who obey the rule can rely on the node whenever no write is under way. */
  ghost predicate RightWhenQuiet(size: nat, rule: Rule) {
    forall calls :: Obeys(size, calls, rule) && Run(size, calls).pending == map[] ==> Truthful(size, calls)
  }

  /**
    Which rules make the node reliable: for any set of sizes and any number of writers at a time, exactly the
    careful ones.
   */
  lemma ReliableExactlyWhen(size: nat, rule: Rule)
    ensures RightWhenQuiet(size, rule) <==> Careful(size, Fitting(size, rule))
  {
    var fitting := Fitting(size, rule);
    if Careful(size, fitting) {
      forall calls | Obeys(size, calls, rule) && Run(size, calls).pending == map[] ensures Truthful(size, calls) {
        FittingIsObeyed(size, calls, rule);
        CarefulIsRight(size, calls, fitting);
      }
    } else {
      var calls := CarelessMisleads(size, fitting);
      FittingIsObeyed(size, calls, rule);
    }
  }

  // ----- Reading to the end

  /** Fully copied reads of the given lengths by one opener, up to and including the first that returns nothing. */
  function Drain(size: nat, s: State, fd: nat, lengths: seq<nat>): (r: (seq<byte>, bool))
    requires Inv(size, s) && Ready(s, fd)
    decreases |lengths|
  {
    if lengths == [] then ([], false)
    else
      var (s', r) := Step(size, s, Read(fd, lengths[0], lengths[0]));
      if r.data == [] then ([], true)
      else
        var rest := Drain(size, s', fd, lengths[1..]);
        (r.data + rest.0, rest.1)
  }

  lemma ReadTakes(size: nat, s: State, fd: nat, length: nat)
    requires Inv(size, s) && Ready(s, fd)
    ensures var pos, n := s.files[fd], Room(size, s.files[fd], length);
            && Step(size, s, Read(fd, length, length)) ==
               (s.(files := s.files[fd := pos + n]), Bytes(s.buf[pos..pos + n]))
            && s.buf[pos..] == s.buf[pos..pos + n] + s.buf[pos + n..]
  {}

  /** Reads of positive size, repeated until one returns nothing, deliver exactly the rest of the buffer. */
  lemma {:induction false} DrainReadsSuffix(size: nat, s: State, fd: nat, lengths: seq<nat>)
    requires Inv(size, s) && Ready(s, fd) && forall i :: 0 <= i < |lengths| ==> 0 < lengths[i]
    ensures var (data, done) := Drain(size, s, fd, lengths);
            && data <= s.buf[s.files[fd]..]
            && (done ==> data == s.buf[s.files[fd]..])
    decreases |lengths|
  {
    if lengths != [] {
      var pos := s.files[fd];
      var n := Room(size, pos, lengths[0]);
      ReadTakes(size, s, fd, lengths[0]);
      if n == 0 {
        assert s.buf[pos..] == [];
      } else {
        DrainReadsSuffix(size, Step(size, s, Read(fd, lengths[0], lengths[0])).0, fd, lengths[1..]);
      }
    }
  }

  /** And one of them does return nothing, as soon as there are more reads than bytes left. */
  lemma {:induction false} DrainEnds(size: nat, s: State, fd: nat, lengths: seq<nat>)
    requires Inv(size, s) && Ready(s, fd) && forall i :: 0 <= i < |lengths| ==> 0 < lengths[i]
    requires |lengths| > size - s.files[fd]
    ensures Drain(size, s, fd, lengths).1
    decreases |lengths|
  {
    var pos := s.files[fd];
    if Room(size, pos, lengths[0]) > 0 {
      DrainEnds(size, Step(size, s, Read(fd, lengths[0], lengths[0])).0, fd, lengths[1..]);
    }
  }

  // ----- The driver, its buffer, offsets and list updated in place

  /** The list as the module sets it up. */
  method FirstList() returns (list: CircularList.List)
    ensures fresh(list) && list.Valid() && list.nodes != [] && fresh(list.Ring())
    ensures list.nodes[0].info1 == CountText(0)
  {
    list := new CircularList.List();
    var node := new CircularList.Link();
    node.info, node.info1 := "List Node 1\n", CountText(0);
    list.AddTail(node);
  }

  class Driver {
    const buffer: array<byte>
    const list: CircularList.List
    var files: map<nat, nat>
    var pending: map<nat, nat>
    ghost var shown: nat
    ghost var calls: seq<Call>     // so far

    ghost function Snapshot(): State
      reads this, buffer
    {
      State(buffer[..], files, pending, shown)
    }

    ghost predicate Valid()
      reads this, buffer, list, list.Ring(), list.nodes
    {
      && Snapshot() == Run(buffer.Length, calls)
      && list.Valid() && list.nodes != []
      && list.nodes[0].info1 == CountText(shown)
    }

    constructor (size: nat)
      ensures Valid() && fresh(buffer) && fresh(list) && buffer.Length == size
      ensures calls == [] && Snapshot() == Init(size)
    {
      buffer := new byte[size](_ => 0);
      var theList := FirstList();
      list := theList;
      files, pending := map[], map[];
      shown := 0;
      calls := [];
      new;
      assert buffer[..] == Zeros(size);
    }

    /** Adds to the record of calls one that has just been carried out. */
    ghost method Note(c: Call)
      requires Snapshot() == Step(buffer.Length, Run(buffer.Length, calls), c).0
      modifies this`calls
      ensures calls == old(calls) + [c] && Snapshot() == old(Snapshot()) == Run(buffer.Length, calls)
    {
      More(buffer.Length, calls, c);
      calls := calls + [c];
    }

    method ScullOpen(fd: nat)
      requires Valid() && fd !in files
      modifies this`files, this`calls
      ensures Valid() && (Snapshot(), Opened) == Step(buffer.Length, old(Snapshot()), Open(fd))
      ensures calls == old(calls) + [Open(fd)]
    {
      files := files[fd := 0];
      Note(Open(fd));
    }

    method ScullRelease(fd: nat)
      requires Valid() && fd in files && fd !in pending
      modifies this`files, this`calls
      ensures Valid() && (Snapshot(), Released) == Step(buffer.Length, old(Snapshot()), Release(fd))
      ensures calls == old(calls) + [Release(fd)]
    {
      files := files - {fd};
      Note(Release(fd));
    }

    /** The copying part of `scull_read`. */
    method CopyOut(pos: nat, count: nat, copied: nat) returns (data: seq<byte>)
      requires pos <= buffer.Length
      ensures |data| == Min(copied, Room(buffer.Length, pos, count))
      ensures data == buffer[..][pos..pos + |data|]
    {
      var maxBytes := buffer.Length - pos;
      var bytesToRead := if count > maxBytes then maxBytes else count;
      var bytesRead := Min(copied, bytesToRead);
      data := buffer[pos..pos + bytesRead];
    }

    method ScullRead(fd: nat, count: nat, copied: nat) returns (data: seq<byte>)
      requires Valid() && fd in files && fd !in pending
      modifies this`files, this`calls
      ensures Valid() && (Snapshot(), Bytes(data)) == Step(buffer.Length, old(Snapshot()), Read(fd, count, copied))
      ensures calls == old(calls) + [Read(fd, count, copied)]
    {
      data := CopyOut(files[fd], count, copied);
      files := files[fd := files[fd] + |data|];
      Note(Read(fd, count, copied));
    }

    /** `memset` and `copy_from_user`. */
    method ClearAndCopy(pos: nat, data: seq<byte>)
      requires pos + |data| <= buffer.Length
      modifies buffer
      ensures buffer[..] == Overlay(Zeros(buffer.Length), pos, data)
    {
      forall i | 0 <= i < buffer.Length {
        buffer[i] := 0;
      }
      forall i | 0 <= i < |data| {
        buffer[pos + i] := data[i];
      }
    }

    /** The copying part of `scull_write`. */
    method CopyIn(pos: nat, data: seq<byte>, copied: nat) returns (bytesWritten: nat)
      requires pos <= buffer.Length
      modifies buffer
      ensures bytesWritten == Min(copied, Room(buffer.Length, pos, |data|))
      ensures buffer[..] == Overlay(Zeros(buffer.Length), pos, data[..bytesWritten])
    {
      var maxBytes := buffer.Length - pos;
      var bytesToWrite := if |data| > maxBytes then maxBytes else |data|;
      bytesWritten := Min(copied, bytesToWrite);
      ClearAndCopy(pos, data[..bytesWritten]);
    }

    /** The two traversals of `scull_write` and the `sprintf` into the node they find. */
    method ShowCount(n: nat)
      requires list.Valid() && list.nodes != []
      modifies list.nodes`info1
      ensures list.Valid() && list.nodes[0].info1 == CountText(n)
      ensures forall i :: 0 < i < |list.nodes| ==> list.nodes[i].info1 == old(list.nodes[i].info1)
    {
      var q := list.FirstNode();
      assert list.Ring()[1..] == list.nodes;
      q.info1 := CountText(n);
    }

    /** `scull_write` up to where it gives the semaphore back. */
    method StartWrite(fd: nat, data: seq<byte>, copied: nat)
      requires Valid() && fd in files && fd !in pending
      modifies this`files, this`pending, this`calls, buffer
      ensures Valid() && (Snapshot(), Stored) == Step(buffer.Length, old(Snapshot()), Store(fd, data, copied))
      ensures calls == old(calls) + [Store(fd, data, copied)]
    {
      var pos := files[fd];
      var bytesWritten := CopyIn(pos, data, copied);
      files, pending := files[fd := pos + bytesWritten], pending[fd := bytesWritten];
      Note(Store(fd, data, copied));
    }

    /** The rest of `scull_write`, outside the semaphore. */
    method FinishWrite(fd: nat) returns (bytesWritten: nat)
      requires Valid() && fd in pending
      modifies this`pending, this`shown, this`calls, list.nodes`info1
      ensures Valid() && (Snapshot(), Count(bytesWritten)) == Step(buffer.Length, old(Snapshot()), Record(fd))
      ensures calls == old(calls) + [Record(fd)]
      ensures forall i :: 0 < i < |list.nodes| ==> list.nodes[i].info1 == old(list.nodes[i].info1)
    {
      bytesWritten := pending[fd];
      pending := pending - {fd};
      if bytesWritten > 0 && bytesWritten < buffer.Length {
        ShowCount(bytesWritten);
        shown := bytesWritten;
      }
      Note(Record(fd));
    }

    /** What the node's text says is what the theorem above is about: its number is the size of the last write. */
    lemma TextIsTruthful()
      requires Valid()
      ensures var n := LastCount(buffer.Length, calls);
              NumberIn(list.nodes[0].info1) == Some(n) <==>
                || (exists i: nat, j: nat ::
                      PrintsLast(buffer.Length, calls, i, j) && StoresAsMany(buffer.Length, calls, i, n))
                || (n == 0 && NothingPrinted(buffer.Length, calls))
    {
      CountTextTells(shown);
      NodeIsTruthful(buffer.Length, calls);
    }
  }
}
