/**
  The 20-byte frames that carry commands over the door-bell program's pipes.

  A writer copies a command name into its buffer with `strncpy` and writes the whole buffer; a reader reads
  up to 20 bytes into a buffer of its own, which may still hold an older frame, and maps the C string found
  there back to an event.
 */
module PipeFrames {
  import opened Options

  const MAX_MESSAGE_SIZE: nat := 20

  const NUL: char := '\0'

  /** The `event` enumeration. */
  datatype Event =
    | Invalid
    | MotionDetected
    | CalcDistance
    | MotionScanOn
    | InvalidDistance
    | ValidDistance
    | RingBell
    | RingBellExpiry
    | EcuNotWorking
    | DoorWaitExpiry
    | DoorWaitRetryEnd

  /** The events that have a wire name. */
  predicate IsCommand(e: Event) {
    e in {CalcDistance, MotionScanOn, RingBell, RingBellExpiry, DoorWaitExpiry, DoorWaitRetryEnd}
  }

  type Command = e: Event | IsCommand(e) witness CalcDistance

  function Name(c: Command): string {
    match c
    case CalcDistance => "CALC_DISTANCE"
    case MotionScanOn => "MOTION_SCAN_ON"
    case RingBell => "RING_BELL"
    case RingBellExpiry => "RING_BELL_EXPIRY"
    case DoorWaitExpiry => "DOOR_WAIT_EXPIRY"
    case DoorWaitRetryEnd => "DOOR_WAIT_RETRY_END"
  }

  function Nuls(n: nat): (r: string)
    ensures |r| == n && forall i :: 0 <= i < n ==> r[i] == NUL
  {
    seq(n, _ => NUL)
  }

  /** A 20-byte buffer. */
  type Buffer = b: string | |b| == MAX_MESSAGE_SIZE witness Nuls(MAX_MESSAGE_SIZE)

  const ZEROS: Buffer := Nuls(MAX_MESSAGE_SIZE)

  /** `strncpy(dst, src, n)`: copies `src` and pads with NUL up to `n`; bytes from `n` on keep their value. */
  function Strncpy(dst: string, src: string, n: nat): (r: string)
    requires n <= |dst|
    ensures |r| == |dst|
  {
    (if |src| < n then src + Nuls(n - |src|) else src[..n]) + dst[n..]
  }

  /** The C string a buffer holds: everything before its first NUL. */
  function CString(buf: string): string {
    if buf == [] || buf[0] == NUL then [] else [buf[0]] + CString(buf[1..])
  }

  /** `strcmp(buf, name) == 0`. */
  predicate StrcmpEqual(buf: string, name: string) {
    CString(buf) == name
  }

  /** `str_enum`: a null pointer and an unknown string are both `Invalid`. */
  function StrEnum(arg: Option<string>): Event {
    if arg.None? then Invalid
    else if StrcmpEqual(arg.value, "CALC_DISTANCE") then CalcDistance
    else if StrcmpEqual(arg.value, "MOTION_SCAN_ON") then MotionScanOn
    else if StrcmpEqual(arg.value, "RING_BELL") then RingBell
    else if StrcmpEqual(arg.value, "RING_BELL_EXPIRY") then RingBellExpiry
    else if StrcmpEqual(arg.value, "DOOR_WAIT_EXPIRY") then DoorWaitExpiry
    else if StrcmpEqual(arg.value, "DOOR_WAIT_RETRY_END") then DoorWaitRetryEnd
    else Invalid
  }

  /** The frame every writer produces for `c` from a clean buffer. */
  function Frame(c: Command): Buffer {
    Strncpy(ZEROS, Name(c), MAX_MESSAGE_SIZE)
  }

  /** Bytes transferred by `read(fd, buf, 20)` from a pipe holding `pipe`. */
  function ReadSize(pipe: string): (n: nat)
    ensures n <= |pipe| && n <= MAX_MESSAGE_SIZE
  {
    if |pipe| < MAX_MESSAGE_SIZE then |pipe| else MAX_MESSAGE_SIZE
  }

  /** The reader's buffer after the read: bytes past the transfer keep their old value. */
  function ReadInto(buf: Buffer, pipe: string): Buffer {
    pipe[..ReadSize(pipe)] + buf[ReadSize(pipe)..]
  }

  // ----- One frame

  /** `CString` is the prefix before the first NUL. */
  lemma {:induction false} CStringIsPrefix(s: string, rest: string)
    requires NUL !in s
    requires rest == [] || rest[0] == NUL
    ensures CString(s + rest) == s
  {
    if s == [] {
      assert s + rest == rest;
    } else {
      assert (s + rest)[1..] == s[1..] + rest;
      CStringIsPrefix(s[1..], rest);
      assert s == [s[0]] + s[1..];
    }
  }

  lemma NamesFit(c: Command)
    ensures |Name(c)| < MAX_MESSAGE_SIZE && NUL !in Name(c)
  {}

  /** `str_enum` looks at nothing past the first NUL, and tells the six names apart from each other and all else. */
  lemma StrEnumExact(buf: string)
    ensures StrEnum(Some(buf)) == CalcDistance <==> CString(buf) == "CALC_DISTANCE"
    ensures StrEnum(Some(buf)) == MotionScanOn <==> CString(buf) == "MOTION_SCAN_ON"
    ensures StrEnum(Some(buf)) == RingBell <==> CString(buf) == "RING_BELL"
    ensures StrEnum(Some(buf)) == RingBellExpiry <==> CString(buf) == "RING_BELL_EXPIRY"
    ensures StrEnum(Some(buf)) == DoorWaitExpiry <==> CString(buf) == "DOOR_WAIT_EXPIRY"
    ensures StrEnum(Some(buf)) == DoorWaitRetryEnd <==> CString(buf) == "DOOR_WAIT_RETRY_END"
    ensures StrEnum(Some(buf)) == Invalid || IsCommand(StrEnum(Some(buf)))
  {}

  /** A writer's stale buffer never leaks into a frame: `strncpy` overwrites all 20 bytes. */
  lemma FrameIgnoresStale(stale: Buffer, c: Command)
    ensures Strncpy(stale, Name(c), MAX_MESSAGE_SIZE) == Frame(c)
  {}

  /** Whatever the reader's buffer held, the command is recovered from a frame at the head of the pipe. */
  lemma ReadRecovers(stale: Buffer, c: Command, rest: string)
    ensures var pipe := Frame(c) + rest;
            && ReadSize(pipe) == MAX_MESSAGE_SIZE
            && ReadInto(stale, pipe) == Frame(c)
            && pipe[ReadSize(pipe)..] == rest
            && StrEnum(Some(ReadInto(stale, pipe))) == c
  {
    var pipe := Frame(c) + rest;
    var padding := Nuls(MAX_MESSAGE_SIZE - |Name(c)|);
    NamesFit(c);
    assert Frame(c) == Name(c) + padding;
    CStringIsPrefix(Name(c), padding);
    StrEnumExact(Frame(c));
    assert ReadInto(stale, pipe) == Frame(c);
  }

  // ----- Any interleaving of posts and reads

  /** One call on a pipe. `stale` is whatever the calling thread's buffer held before the call. */
  datatype Call = Post(stale: Buffer, c: Command) | Read(stale: Buffer)

  datatype Link = Link(pipe: string, sent: seq<Event>, received: seq<Event>)

  /** `None` when the call blocks, that is, a read from an empty pipe. */
  function LinkStep(l: Link, call: Call): Option<Link> {
    match call
    case Post(stale, c) =>
      Some(l.(pipe := l.pipe + Strncpy(stale, Name(c), MAX_MESSAGE_SIZE), sent := l.sent + [c]))
    case Read(stale) =>
      if l.pipe == [] then None
      else Some(l.(pipe := l.pipe[ReadSize(l.pipe)..],
                   received := l.received + [StrEnum(Some(ReadInto(stale, l.pipe)))]))
  }

  function LinkRun(calls: seq<Call>): Option<Link> {
    if calls == [] then Some(Link("", [], []))
    else
      var before := LinkRun(calls[..|calls| - 1]);
      if before.None? then None else LinkStep(before.value, calls[|calls| - 1])
  }

  function Frames(es: seq<Event>): string
    requires forall e <- es :: IsCommand(e)
  {
    if es == [] then "" else Frame(es[0]) + Frames(es[1..])
  }

  lemma {:induction false} FramesLength(es: seq<Event>)
    requires forall e <- es :: IsCommand(e)
    ensures |Frames(es)| == MAX_MESSAGE_SIZE * |es|
  {
    if es != [] {
      FramesLength(es[1..]);
    }
  }

  lemma {:induction false} FramesAppend(es: seq<Event>, c: Command)
    requires forall e <- es :: IsCommand(e)
    ensures Frames(es + [c]) == Frames(es) + Frame(c)
  {
    if es == [] {
      assert es + [c] == [c] && [c][1..] == [];
      assert Frames([]) == "" && Frame(c) + "" == Frame(c) && "" + Frame(c) == Frame(c);
    } else {
      assert (es + [c])[1..] == es[1..] + [c];
      FramesAppend(es[1..], c);
      assert Frame(es[0]) + (Frames(es[1..]) + Frame(c)) == Frames(es) + Frame(c);
    }
  }

  /** What was received is the first part of what was sent; the pipe holds exactly the frames of the rest. */
  ghost predicate InOrder(l: Link) {
    && |l.received| <= |l.sent|
    && l.received == l.sent[..|l.received|]
    && (forall e <- l.sent :: IsCommand(e))
    && l.pipe == Frames(l.sent[|l.received|..])
  }

  lemma PostKeepsOrder(l: Link, stale: Buffer, c: Command)
    requires InOrder(l)
    ensures InOrder(LinkStep(l, Post(stale, c)).value)
  {
    var l' := LinkStep(l, Post(stale, c)).value;
    FrameIgnoresStale(stale, c);
    FramesAppend(l.sent[|l.received|..], c);
    assert l'.sent[|l.received|..] == l.sent[|l.received|..] + [c];
  }

  lemma ReadKeepsOrder(l: Link, stale: Buffer)
    requires InOrder(l) && l.pipe != []
    ensures InOrder(LinkStep(l, Read(stale)).value)
  {
    var l' := LinkStep(l, Read(stale)).value;
    var waiting := l.sent[|l.received|..];
    assert waiting != [] by { FramesLength(waiting); }
    assert waiting[0] in l.sent;
    ReadRecovers(stale, waiting[0], Frames(waiting[1..]));
    assert l'.sent[|l'.received|..] == waiting[1..];
    assert l.sent[..|l'.received|] == l.sent[..|l.received|] + [waiting[0]];
  }

  lemma CallKeepsOrder(l: Link, call: Call)
    requires InOrder(l) && LinkStep(l, call).Some?
    ensures InOrder(LinkStep(l, call).value)
  {
    if call.Post? {
      PostKeepsOrder(l, call.stale, call.c);
    } else {
      ReadKeepsOrder(l, call.stale);
    }
  }

  /** The pipe only ever holds whole frames. */
  lemma WholeFrames(l: Link)
    requires InOrder(l)
    ensures |l.pipe| == MAX_MESSAGE_SIZE * (|l.sent| - |l.received|)
  {
    FramesLength(l.sent[|l.received|..]);
  }

  /**
    For every interleaving of posts and reads, by any number of writers and readers with any stale buffers:
    events arrive in the order they were sent, none lost, none invented, and no read ever sees part of a frame.
   */
  lemma {:induction false} FramingRoundTrip(calls: seq<Call>)
    requires LinkRun(calls).Some?
    ensures var l := LinkRun(calls).value;
            InOrder(l) && |l.pipe| == MAX_MESSAGE_SIZE * (|l.sent| - |l.received|)
    decreases |calls|
  {
    if calls != [] {
      var front := LinkRun(calls[..|calls| - 1]);
      FramingRoundTrip(calls[..|calls| - 1]);
      assert LinkRun(calls) == LinkStep(front.value, calls[|calls| - 1]);
      CallKeepsOrder(front.value, calls[|calls| - 1]);
      WholeFrames(LinkRun(calls).value);
    }
  }
}
