/**
  The character driver with `lseek` and exclusive open, over a buffer of any size.

  Copies to and from user space may stop early. After a short copy from user space the kernel may or may not have
  zeroed the part of the buffer it did not reach; both are allowed.
 */
module SeekableDriver {
  import opened DeviceBuffer

  datatype State = State(buf: seq<byte>, sem: int, files: map<nat, nat>)

  /** A system call on the device. `copied` is how far the user-space copy would get. */
  datatype Call =
    | Open(fd: nat, interrupted: bool)
    | Read(fd: nat, length: nat, copied: nat)
    | Write(fd: nat, data: seq<byte>, copied: nat, zeroTail: bool)
    | Lseek(fd: nat, offset: int, whence: int)
    | Close(fd: nat)

  datatype Result =
    | Opened | Interrupted | Waiting
    | Bytes(data: seq<byte>)
    | Count(n: nat)
    | Position(p: nat)
    | Closed
    | NoSuchFile                   // the kernel does not pass such calls on

  function Init(size: nat): State {
    State(Zeros(size), 1, map[])
  }

  /** `device_lseek`: relative to the start, the current offset or the end (backwards), clamped to the buffer. */
  function SeekTo(size: nat, pos: nat, offset: int, whence: int): (p: nat)
    ensures p <= size
  {
    var target := if whence == 0 then offset else if whence == 1 then pos + offset
                  else if whence == 2 then size - offset else 0;
    if target > size then size else if target < 0 then 0 else target
  }

  /** `copy_from_user` of `n` bytes to `pos`, of which the first `k` arrive. */
  function CopiedIn(buf: seq<byte>, pos: nat, data: seq<byte>, n: nat, k: nat, zeroTail: bool): (r: seq<byte>)
    requires k <= n <= |data| && pos + n <= |buf|
    ensures |r| == |buf|
  {
    Overlay(buf, pos, data[..k] + if zeroTail then Zeros(n - k) else buf[pos + k..pos + n])
  }

  /** The buffer after `device_write`. */
  function Written(buf: seq<byte>, pos: nat, data: seq<byte>, copied: nat, zeroTail: bool): (r: seq<byte>)
    requires pos <= |buf|
    ensures |r| == |buf|
  {
    var n := Room(|buf|, pos, |data|);
    CopiedIn(buf, pos, data, n, Min(copied, n), zeroTail)
  }

  predicate Inv(size: nat, s: State) {
    && |s.buf| == size
    && (forall fd <- s.files :: s.files[fd] <= size)
    && s.sem + |s.files| == 1 && s.sem >= 0
  }

  function Step(size: nat, s: State, c: Call): (State, Result)
    requires Inv(size, s)
  {
    if c.Open? then
      if c.fd in s.files then (s, NoSuchFile)
      else if s.sem > 0 then (s.(sem := s.sem - 1, files := s.files[c.fd := 0]), Opened)
      else (s, if c.interrupted then Interrupted else Waiting)
    else if c.fd !in s.files then (s, NoSuchFile)
    else
      var pos := s.files[c.fd];
      match c
      case Read(fd, length, copied) =>
        var k := Min(copied, Room(size, pos, length));
        (s.(files := s.files[fd := pos + k]), Bytes(s.buf[pos..pos + k]))
      case Write(fd, data, copied, zeroTail) =>
        var k := Min(copied, Room(size, pos, |data|));
        (s.(buf := Written(s.buf, pos, data, copied, zeroTail), files := s.files[fd := pos + k]), Count(k))
      case Lseek(fd, offset, whence) =>
        var p := SeekTo(size, pos, offset, whence);
        (s.(files := s.files[fd := p]), Position(p))
      case Close(fd) => (s.(sem := s.sem + 1, files := s.files - {fd}), Closed)
  }

  /** Every call keeps the offsets inside the buffer and the semaphore in step with the open files. */
  lemma StepKeeps(size: nat, s: State, c: Call)
    requires Inv(size, s)
    ensures Inv(size, Step(size, s, c).0)
  {
    if c.Close? && c.fd in s.files {
      assert (s.files - {c.fd}).Keys == s.files.Keys - {c.fd};
      assert |s.files.Keys - {c.fd}| == |s.files.Keys| - 1;
    } else if !c.Open? && c.fd in s.files {
      assert s.files.Keys == Step(size, s, c).0.files.Keys;
    }
  }

  /** The state after a history of calls by any number of processes. */
  function Run(size: nat, calls: seq<Call>): (s: State)
    ensures Inv(size, s)
  {
    if calls == [] then Init(size)
    else
      var before := Run(size, calls[..|calls| - 1]);
      StepKeeps(size, before, calls[|calls| - 1]);
      Step(size, before, calls[|calls| - 1]).0
  }

  /** What each call of a history returned. */
  function Results(size: nat, calls: seq<Call>): seq<Result> {
    if calls == [] then []
    else
      var front, c := calls[..|calls| - 1], calls[|calls| - 1];
      Results(size, front) + [Step(size, Run(size, front), c).1]
  }

  // ----- Refinement of a plain array with one cursor

  datatype Session = NoSession | Session(fd: nat, offset: nat)

  /** The reference: an array of bytes, and at most one user with a cursor into it. */
  datatype Plain = Plain(content: seq<byte>, user: Session)

  /** Bytes transferred between the cursor and the end of the array. */
  function Reach(size: nat, offset: nat, length: nat, copied: nat): (k: nat)
    requires offset <= size
    ensures offset + k <= size
  {
    Min(copied, Min(length, size - offset))
  }

  /** Byte by byte: the first `k` bytes of `data` at `at`, then old bytes or zeros, old bytes everywhere else. */
  function PlainWritten(content: seq<byte>, at: nat, data: seq<byte>, k: nat, zeroTail: bool): seq<byte>
    requires at + k <= |content| && k <= |data|
  {
    seq(|content|, i requires 0 <= i < |content| =>
      if at <= i < at + k then data[i - at]
      else if at + k <= i < at + |data| && zeroTail then 0
      else content[i])
  }

  function Distance(a: int, b: int): nat {
    if a < b then b - a else a - b
  }

  function Nearest(size: nat, target: int): (q: nat)
    ensures q <= size && forall other :: 0 <= other <= size ==> Distance(q, target) <= Distance(other, target)
  {
    if target <= 0 then 0 else Min(target, size)
  }

  /** Where the cursor goes: to the target, or as near to it as the array reaches; an unknown origin means 0. */
  function PlainSeek(size: nat, at: nat, offset: int, whence: int): (q: nat)
    ensures q <= size
  {
    if whence == 0 then Nearest(size, offset)
    else if whence == 1 then Nearest(size, at + offset)
    else if whence == 2 then Nearest(size, size - offset)
    else 0
  }

  predicate PlainOk(size: nat, p: Plain) {
    |p.content| == size && (p.user.Session? ==> p.user.offset <= size)
  }

  function PlainStep(size: nat, p: Plain, c: Call): (r: (Plain, Result))
    requires PlainOk(size, p)
    ensures PlainOk(size, r.0)
  {
    if c.Open? then
      if p.user == NoSession then (p.(user := Session(c.fd, 0)), Opened)
      else if p.user.fd == c.fd then (p, NoSuchFile)
      else (p, if c.interrupted then Interrupted else Waiting)
    else if p.user == NoSession || p.user.fd != c.fd then (p, NoSuchFile)
    else
      var at := p.user.offset;
      match c
      case Read(_, length, copied) =>
        var k := Reach(size, at, length, copied);
        (p.(user := p.user.(offset := at + k)), Bytes(seq(k, i requires 0 <= i < k => p.content[at + i])))
      case Write(_, data, copied, zeroTail) =>
        var k := Reach(size, at, |data|, copied);
        (Plain(PlainWritten(p.content, at, data, k, zeroTail), p.user.(offset := at + k)), Count(k))
      case Lseek(_, offset, whence) =>
        var q := PlainSeek(size, at, offset, whence);
        (p.(user := p.user.(offset := q)), Position(q))
      case Close(_) => (p.(user := NoSession), Closed)
  }

  function PlainRun(size: nat, calls: seq<Call>): (p: Plain)
    ensures PlainOk(size, p)
  {
    if calls == [] then Plain(Zeros(size), NoSession)
    else PlainStep(size, PlainRun(size, calls[..|calls| - 1]), calls[|calls| - 1]).0
  }

  function PlainResults(size: nat, calls: seq<Call>): seq<Result> {
    if calls == [] then []
    else
      var front, c := calls[..|calls| - 1], calls[|calls| - 1];
      PlainResults(size, front) + [PlainStep(size, PlainRun(size, front), c).1]
  }

  /** The driver's state shows the plain array's. */
  predicate Shows(s: State, p: Plain) {
    s.buf == p.content && s.files == (if p.user == NoSession then map[] else map[p.user.fd := p.user.offset])
  }

  lemma ContentAgrees(buf: seq<byte>, at: nat, data: seq<byte>, copied: nat, zeroTail: bool)
    requires at <= |buf|
    ensures Written(buf, at, data, copied, zeroTail)
            == PlainWritten(buf, at, data, Reach(|buf|, at, |data|, copied), zeroTail)
  {
    var b := Written(buf, at, data, copied, zeroTail);
    var b' := PlainWritten(buf, at, data, Reach(|buf|, at, |data|, copied), zeroTail);
    assert |b| == |b'| && forall i :: 0 <= i < |b| ==> b[i] == b'[i];
  }

  /** Same result, and still showing the same array. */
  predicate Agree(c: (State, Result), p: (Plain, Result)) {
    Shows(c.0, p.0) && c.1 == p.1
  }

  lemma WriteRefines(size: nat, s: State, p: Plain, c: Call)
    requires Inv(size, s) && PlainOk(size, p) && Shows(s, p) && c.Write? && c.fd in s.files
    ensures Agree(Step(size, s, c), PlainStep(size, p, c))
  {
    ContentAgrees(s.buf, s.files[c.fd], c.data, c.copied, c.zeroTail);
  }

  lemma ReadRefines(size: nat, s: State, p: Plain, c: Call)
    requires Inv(size, s) && PlainOk(size, p) && Shows(s, p) && c.Read? && c.fd in s.files
    ensures Agree(Step(size, s, c), PlainStep(size, p, c))
  {
    assert Step(size, s, c).1.data == PlainStep(size, p, c).1.data;
  }

  lemma SessionRefines(size: nat, s: State, p: Plain, c: Call)
    requires Inv(size, s) && PlainOk(size, p) && Shows(s, p) && !(c.Read? || c.Write?)
    ensures Agree(Step(size, s, c), PlainStep(size, p, c))
  {
    if c.Open? {
      assert |s.files| == if p.user == NoSession then 0 else 1;
    } else if c.Close? && c.fd in s.files {
      assert s.files - {c.fd} == map[];
    }
  }

  lemma StepRefines(size: nat, s: State, p: Plain, c: Call)
    requires Inv(size, s) && PlainOk(size, p) && Shows(s, p)
    ensures Agree(Step(size, s, c), PlainStep(size, p, c))
  {
    if !(c.Read? || c.Write?) {
      SessionRefines(size, s, p, c);
    } else if c.fd in s.files {
      if c.Read? { ReadRefines(size, s, p, c); } else { WriteRefines(size, s, p, c); }
    }
  }

  /**
    Over every history of open, read, write, lseek and close calls, with arbitrary partial copies, the driver
    returns exactly what a plain array with at most one cursor returns, and holds the same bytes.
   */
  lemma {:induction false} RefinesArray(size: nat, calls: seq<Call>)
    ensures Shows(Run(size, calls), PlainRun(size, calls))
    ensures Results(size, calls) == PlainResults(size, calls)
  {
    if calls != [] {
      var front := calls[..|calls| - 1];
      RefinesArray(size, front);
      StepRefines(size, Run(size, front), PlainRun(size, front), calls[|calls| - 1]);
    }
  }

  /** At most one session is open at any time, and an open succeeds exactly when none is. */
  lemma ExclusiveOpen(size: nat, calls: seq<Call>, fd: nat, interrupted: bool)
    requires fd !in Run(size, calls).files
    ensures |Run(size, calls).files| <= 1
    ensures Step(size, Run(size, calls), Open(fd, interrupted)).1 == Opened <==> Run(size, calls).files == map[]
  {}

  // ----- Writing and reading back, in any pieces

  function Flatten(chunks: seq<seq<byte>>): seq<byte> {
    if chunks == [] then [] else chunks[0] + Flatten(chunks[1..])
  }

  /** The state after fully copied writes of the chunks, one after the other. */
  function WriteAll(size: nat, s: State, fd: nat, chunks: seq<seq<byte>>): (s': State)
    requires Inv(size, s) && fd in s.files
    ensures Inv(size, s') && fd in s'.files
    decreases |chunks|
  {
    if chunks == [] then s
    else
      var c := Write(fd, chunks[0], |chunks[0]|, false);
      StepKeeps(size, s, c);
      WriteAll(size, Step(size, s, c).0, fd, chunks[1..])
  }

  /** Fully copied reads of the given lengths, one after the other. */
  function ReadCalls(size: nat, s: State, fd: nat, lengths: seq<nat>): (r: (State, seq<byte>))
    requires Inv(size, s) && fd in s.files
    decreases |lengths|
  {
    if lengths == [] then (s, [])
    else
      var c := Read(fd, lengths[0], lengths[0]);
      StepKeeps(size, s, c);
      var (s', r) := Step(size, s, c);
      var rest := ReadCalls(size, s', fd, lengths[1..]);
      (rest.0, r.data + rest.1)
  }

  /** The state after one fully copied write, without its call. */
  function Stored(size: nat, s: State, fd: nat, data: seq<byte>): State
    requires Inv(size, s) && fd in s.files
  {
    var pos := s.files[fd];
    var n := Room(size, pos, |data|);
    s.(buf := Overlay(s.buf, pos, data[..n]), files := s.files[fd := pos + n])
  }

  /** What one fully copied read returns, and the state it leaves. */
  function Fetched(size: nat, s: State, fd: nat, length: nat): (State, seq<byte>)
    requires Inv(size, s) && fd in s.files
  {
    var pos := s.files[fd];
    var end := pos + Room(size, pos, length);
    (s.(files := s.files[fd := end]), s.buf[pos..end])
  }

  lemma FullWrite(size: nat, s: State, fd: nat, data: seq<byte>)
    requires Inv(size, s) && fd in s.files
    ensures Step(size, s, Write(fd, data, |data|, false)).0 == Stored(size, s, fd, data)
    ensures Inv(size, Stored(size, s, fd, data))
  {
    var pos := s.files[fd];
    var n := Room(size, pos, |data|);
    assert data[..n] + s.buf[pos + n..pos + n] == data[..n];
    StepKeeps(size, s, Write(fd, data, |data|, false));
  }

  lemma FullRead(size: nat, s: State, fd: nat, length: nat)
    requires Inv(size, s) && fd in s.files
    ensures var (s', data) := Fetched(size, s, fd, length);
            Step(size, s, Read(fd, length, length)) == (s', Bytes(data)) && Inv(size, s') && fd in s'.files
  {
    StepKeeps(size, s, Read(fd, length, length));
  }

  lemma StoredTwice(size: nat, s: State, fd: nat, a: seq<byte>, b: seq<byte>)
    requires Inv(size, s) && fd in s.files && Inv(size, Stored(size, s, fd, a))
    ensures Stored(size, Stored(size, s, fd, a), fd, b) == Stored(size, s, fd, a + b)
  {
    var pos := s.files[fd];
    var n := Room(size, pos, |a|);
    DataSplits(size, pos, a, b);
    RoomSplits(size, pos, |a|, |b|);
    OverlayTwice(s.buf, pos, a[..n], b[..Room(size, pos + n, |b|)]);
  }

  lemma FetchedTwice(size: nat, s: State, fd: nat, a: nat, b: nat)
    requires Inv(size, s) && fd in s.files && Inv(size, Fetched(size, s, fd, a).0)
    ensures var (s1, r1) := Fetched(size, s, fd, a);
            var (s2, r2) := Fetched(size, s1, fd, b);
            Fetched(size, s, fd, a + b) == (s2, r1 + r2)
  {
    var pos := s.files[fd];
    var mid := pos + Room(size, pos, a);
    RoomSplits(size, pos, a, b);
    var end := pos + Room(size, pos, a + b);
    assert s.buf[pos..mid] + s.buf[mid..end] == s.buf[pos..end];
    assert s.files[fd := mid][fd := end] == s.files[fd := end];
  }

  /** However the data is split into write calls, the effect is one overlay, cut off at the end of the buffer. */
  lemma {:induction false} WriteSplits(size: nat, s: State, fd: nat, chunks: seq<seq<byte>>)
    requires Inv(size, s) && fd in s.files
    ensures WriteAll(size, s, fd, chunks) == Stored(size, s, fd, Flatten(chunks))
    decreases |chunks|
  {
    if chunks == [] {
      OverlayNothing(s.buf, s.files[fd]);
      assert s.files == s.files[fd := s.files[fd]];
    } else {
      FullWrite(size, s, fd, chunks[0]);
      WriteSplits(size, Stored(size, s, fd, chunks[0]), fd, chunks[1..]);
      StoredTwice(size, s, fd, chunks[0], Flatten(chunks[1..]));
    }
  }

  /** However a read is split into calls, the bytes are the same. */
  lemma {:induction false} ReadCallsSplit(size: nat, s: State, fd: nat, lengths: seq<nat>)
    requires Inv(size, s) && fd in s.files
    ensures ReadCalls(size, s, fd, lengths) == Fetched(size, s, fd, Sum(lengths))
    decreases |lengths|
  {
    if lengths == [] {
      assert s.files == s.files[fd := s.files[fd]] && s.buf[s.files[fd]..s.files[fd]] == [];
    } else {
      FullRead(size, s, fd, lengths[0]);
      ReadCallsSplit(size, Fetched(size, s, fd, lengths[0]).0, fd, lengths[1..]);
      FetchedTwice(size, s, fd, lengths[0], Sum(lengths[1..]));
    }
  }

  /**
    Data written from some offset in any split of calls, then read back from that offset in any split of calls of
    the same total length, comes back unchanged up to the end of the buffer.
   */
  lemma WriteSeekRead(size: nat, s: State, fd: nat, chunks: seq<seq<byte>>, lengths: seq<nat>)
    requires Inv(size, s) && fd in s.files && Sum(lengths) == |Flatten(chunks)|
    ensures var pos := s.files[fd];
            var data := Flatten(chunks);
            var back := Step(size, WriteAll(size, s, fd, chunks), Lseek(fd, pos, 0)).0;
            && Inv(size, back) && fd in back.files
            && ReadCalls(size, back, fd, lengths).1 == data[..Min(|data|, size - pos)]
  {
    var pos := s.files[fd];
    var data := Flatten(chunks);
    WriteSplits(size, s, fd, chunks);
    var s1 := WriteAll(size, s, fd, chunks);
    StepKeeps(size, s1, Lseek(fd, pos, 0));
    var back := Step(size, s1, Lseek(fd, pos, 0)).0;
    ReadCallsSplit(size, back, fd, lengths);
    OverlayReadsBack(s.buf, pos, data[..Room(size, pos, |data|)]);
  }

  // ----- Positioning

  /** `p` is the place in the buffer that is nearest to `target`: the target itself if it is inside. */
  predicate IsNearest(size: nat, target: int, p: int) {
    0 <= p <= size && forall q :: 0 <= q <= size ==> Distance(p, target) <= Distance(q, target)
  }

  lemma NearestIs(size: nat, target: int, p: int)
    ensures IsNearest(size, target, p) <==> p == if 0 <= target <= size then target else if target < 0 then 0 else size
  {
    if IsNearest(size, target, p) {
      var end := if 0 <= target <= size then target else if target < 0 then 0 else size;
      assert Distance(p, target) <= Distance(end, target);
    }
  }

  /**
    What `lseek` answers and does, for every origin: relative to the start, the current offset and, backwards, the
    end, it goes as near to the target as the buffer reaches; for any other origin it goes to 0. Nothing else
    changes.
   */
  lemma SeekLaw(size: nat, s: State, fd: nat, offset: int, whence: int)
    requires Inv(size, s) && fd in s.files
    ensures var (s', r) := Step(size, s, Lseek(fd, offset, whence));
            && r.Position? && s' == s.(files := s.files[fd := r.p])
            && (whence == 0 ==> IsNearest(size, offset, r.p))
            && (whence == 1 ==> IsNearest(size, s.files[fd] + offset, r.p))
            && (whence == 2 ==> IsNearest(size, size - offset, r.p))
            && (whence !in {0, 1, 2} ==> r.p == 0)
  {
    var p := Step(size, s, Lseek(fd, offset, whence)).1.p;
    NearestIs(size, offset, p);
    NearestIs(size, s.files[fd] + offset, p);
    NearestIs(size, size - offset, p);
  }

  /** Seeking by 0 from the current offset answers that offset and changes nothing. */
  lemma SeekTells(size: nat, s: State, fd: nat)
    requires Inv(size, s) && fd in s.files
    ensures Step(size, s, Lseek(fd, 0, 1)) == (s, Position(s.files[fd]))
  {
    assert s.files[fd := s.files[fd]] == s.files;
  }

  /**
    Two relative seeks do what one by their sum does if and only if the first target is inside the buffer, or the
    second seek does not turn back from the end that stopped the first, or it turns back by so much that even the
    sum reaches the other end.
   */
  lemma SeeksAddUp(size: nat, s: State, fd: nat, a: int, b: int)
    requires Inv(size, s) && fd in s.files
    ensures var target := s.files[fd] + a;
            var between := Step(size, s, Lseek(fd, a, 1)).0;
            && Inv(size, between)
            && (Step(size, between, Lseek(fd, b, 1)) == Step(size, s, Lseek(fd, a + b, 1)) <==>
                  || 0 <= target <= size || size == 0
                  || (target > size && (b >= 0 || target + b <= 0))
                  || (target < 0 && (b <= 0 || target + b >= size)))
  {
    StepKeeps(size, s, Lseek(fd, a, 1));
    var p1 := SeekTo(size, s.files[fd], a, 1);
    var p2 := SeekTo(size, p1, b, 1);
    assert s.files[fd := p1][fd := p2] == s.files[fd := p2];
  }

  /** The last bytes of the buffer are read by seeking as far back from its end. */
  lemma TailIsRead(size: nat, s: State, fd: nat, n: nat)
    requires Inv(size, s) && fd in s.files && n <= size
    ensures var s' := Step(size, s, Lseek(fd, n, 2)).0;
            Inv(size, s') && Step(size, s', Read(fd, n, n)).1 == Bytes(s.buf[size - n..])
  {
    StepKeeps(size, s, Lseek(fd, n, 2));
  }

  // ----- The driver, its buffer and offsets updated in place

  class Driver {
    const buffer: array<byte>
    var sem: int
    var files: map<nat, nat>

    ghost function Snapshot(): State
      reads this, buffer
    {
      State(buffer[..], sem, files)
    }

    ghost predicate Valid()
      reads this, buffer
    {
      Inv(buffer.Length, Snapshot())
    }

    constructor (size: nat)
      ensures Valid() && buffer.Length == size && fresh(buffer) && Snapshot() == Init(size)
    {
      buffer := new byte[size](_ => 0);
      sem := 1;
      files := map[];
      new;
      assert buffer[..] == Zeros(size);
    }

    method DeviceOpen(fd: nat, interrupted: bool) returns (r: Result)
      requires Valid() && fd !in files
      modifies this`sem, this`files
      ensures Valid()
      ensures (Snapshot(), r) == Step(buffer.Length, old(Snapshot()), Open(fd, interrupted))
    {
      ghost var before := Snapshot();
      StepKeeps(buffer.Length, before, Open(fd, interrupted));
      if sem > 0 {
        sem := sem - 1;
        files := files[fd := 0];
        r := Opened;
      } else {
        r := if interrupted then Interrupted else Waiting;
      }
    }

    method DeviceRead(fd: nat, length: nat, copied: nat) returns (data: seq<byte>)
      requires Valid() && fd in files
      modifies this`files
      ensures Valid()
      ensures (Snapshot(), Bytes(data)) == Step(buffer.Length, old(Snapshot()), Read(fd, length, copied))
    {
      StepKeeps(buffer.Length, Snapshot(), Read(fd, length, copied));
      var maxBytes := buffer.Length - files[fd];
      var bytesToRead := if maxBytes > length then length else maxBytes;
      var bytesRead := Min(copied, bytesToRead);
      data := buffer[files[fd]..files[fd] + bytesRead];
      files := files[fd := files[fd] + bytesRead];
    }

    /** `copy_from_user` to `buffer + pos`: the first `k` of `n` bytes arrive. */
    method CopyFromUser(pos: nat, data: seq<byte>, n: nat, k: nat, zeroTail: bool)
      requires k <= n <= |data| && pos + n <= buffer.Length
      modifies buffer
      ensures buffer[..] == CopiedIn(old(buffer[..]), pos, data, n, k, zeroTail)
    {
      forall i | 0 <= i < k {
        buffer[pos + i] := data[i];
      }
      if zeroTail {
        forall i | k <= i < n {
          buffer[pos + i] := 0;
        }
      }
    }

    method DeviceWrite(fd: nat, data: seq<byte>, copied: nat, zeroTail: bool) returns (bytesWritten: nat)
      requires Valid() && fd in files
      modifies this`files, buffer
      ensures Valid()
      ensures (Snapshot(), Count(bytesWritten))
              == Step(buffer.Length, old(Snapshot()), Write(fd, data, copied, zeroTail))
    {
      ghost var before := Snapshot();
      var pos := files[fd];
      bytesWritten := CopyIn(pos, data, copied, zeroTail);
      files := files[fd := pos + bytesWritten];
      StepKeeps(buffer.Length, before, Write(fd, data, copied, zeroTail));
    }

    /** The copying part of `device_write`. */
    method CopyIn(pos: nat, data: seq<byte>, copied: nat, zeroTail: bool) returns (bytesWritten: nat)
      requires pos <= buffer.Length
      modifies buffer
      ensures bytesWritten == Min(copied, Room(buffer.Length, pos, |data|))
      ensures buffer[..] == Written(old(buffer[..]), pos, data, copied, zeroTail)
    {
      var maxBytes := buffer.Length - pos;
      var bytesToWrite := if maxBytes > |data| then |data| else maxBytes;
      bytesWritten := Min(copied, bytesToWrite);
      CopyFromUser(pos, data, bytesToWrite, bytesWritten, zeroTail);
    }

    method DeviceLseek(fd: nat, offset: int, whence: int) returns (newPos: int)
      requires Valid() && fd in files
      modifies this`files
      ensures Valid() && newPos >= 0
      ensures (Snapshot(), Position(newPos)) == Step(buffer.Length, old(Snapshot()), Lseek(fd, offset, whence))
    {
      StepKeeps(buffer.Length, Snapshot(), Lseek(fd, offset, whence));
      newPos := 0;
      if whence == 0 {
        newPos := offset;
      } else if whence == 1 {
        newPos := files[fd] + offset;
      } else if whence == 2 {
        newPos := buffer.Length - offset;
      }
      if newPos > buffer.Length { newPos := buffer.Length; }
      if newPos < 0 { newPos := 0; }
      files := files[fd := newPos];
    }

    method DeviceClose(fd: nat)
      requires Valid() && fd in files
      modifies this`sem, this`files
      ensures Valid()
      ensures (Snapshot(), Closed) == Step(buffer.Length, old(Snapshot()), Close(fd))
    {
      StepKeeps(buffer.Length, Snapshot(), Close(fd));
      sem := sem + 1;
      files := files - {fd};
    }
  }
}
