/**
  Everything the door-bell program can show, in plain terms: what may come next, and when, is read off the last
  things shown. The numbers are those an installer would see: 0 and 1 from the door, 4 to 8 from the distance
  sensor, 3 and 30 seconds, 10 minutes, three rings.
 */
module DoorBellLanguage {
  import opened Options
  import opened PipeFrames
  import opened DoorBellSystem
  import opened DoorBellGrammar
  import opened DoorBellVisits

  /** Waits reported since the last successful reboot. */
  function Waits(w: seq<Stamped>): nat {
    if w == [] then 0
    else
      match w[|w| - 1].obs
      case Reboot(works) => if works then 0 else Waits(w[..|w| - 1])
      case WaitPosted(_) => Waits(w[..|w| - 1]) + 1
      case _ => Waits(w[..|w| - 1])
  }

  /** The last thing shown is the first door reading after a ring. */
  predicate FirstLook(w: seq<Stamped>) {
    |w| > 1 && w[|w| - 2].obs == BellExpired && w[|w| - 1].obs.DoorReading?
  }

  /** `o` comes no sooner than `seconds` after the last thing shown. */
  predicate Later(w: seq<Stamped>, o: Stamped, seconds: nat)
    requires w != []
  {
    w[|w| - 1].time + seconds <= o.time
  }

  /** What may follow the words `w` of the program, and when. */
  predicate MayFollow(t0: nat, w: seq<Stamped>, o: Stamped) {
    if w == [] then o.obs == ScanOn && t0 <= o.time
    else
      Later(w, o, 0) &&
      match w[|w| - 1].obs
      case ScanOn => o.obs.MotionReading?
      case MotionReading(r) =>
        if r.status != 0 then o.obs.Reboot? else if r.value == 1 then o.obs.DistanceReading? else o.obs.MotionReading?
      case DistanceReading(r) =>
        if r.status != 0 then o.obs.Reboot? else if 4 <= r.value <= 8 then o.obs == Ring else o.obs == ScanOn
      case Ring => o.obs == BellExpired && Later(w, o, 3)
      case BellExpired => o.obs.DoorReading?
      case DoorReading(r) =>
        if r.value == 0 then o.obs.DoorReading?
        else if !FirstLook(w) then o.obs == ScanOn
        else
          && r.value == 1 && Later(w, o, 30)
          && o.obs == WaitPosted(if Waits(w) < 2 then DoorWaitExpiry else DoorWaitRetryEnd)
      case WaitPosted(ev) => if Waits(w) < 3 then o.obs == Ring else o.obs == ResetExpired && Later(w, o, 600)
      case ResetExpired => o.obs == ScanOn
      case Reboot(works) => works && o.obs == ScanOn
  }

  // ----- The grammar in these terms

  /** The non-terminal that the last things shown stand for. */
  function Expects(w: seq<Stamped>): NonTerminal {
    if w == [] then Start
    else
      match w[|w| - 1].obs
      case ScanOn => Scanning
      case MotionReading(r) => if r.status != 0 then Faulty else if r.value == 1 then Measuring else Scanning
      case DistanceReading(r) => if r.status != 0 then Faulty else if 4 <= r.value <= 8 then Ringing else Start
      case Ring => Rung
      case BellExpired => AtDoor
      case DoorReading(r) =>
        if r.value == 0 then DoorOpen else if !FirstLook(w) then Start else if r.value == 1 then Waiting else Stopped
      case WaitPosted(_) => if Waits(w) < 3 then Ringing else CoolingDown
      case ResetExpired => Start
      case Reboot(works) => if works then Start else Stopped
  }

  /** The phase after a word is known from its end. */
  lemma {:induction false} PhaseIsKnown(t0: nat, w: seq<Stamped>)
    requires Parse(t0, w).Some?
    ensures Parse(t0, w).value == Phase(Expects(w), Waits(w), if w == [] then t0 else w[|w| - 1].time)
    decreases |w|
  {
    if w != [] {
      var front := w[..|w| - 1];
      PhaseIsKnown(t0, front);
      assert front != [] ==> front[|front| - 1] == w[|w| - 2];
    }
  }

  lemma NextIsKnown(t0: nat, w: seq<Stamped>, o: Stamped, p: Phase)
    requires p == Phase(Expects(w), Waits(w), if w == [] then t0 else w[|w| - 1].time)
    ensures Next(p, o).Some? <==> MayFollow(t0, w, o)
  {}

  lemma FollowsIsNext(t0: nat, w: seq<Stamped>, o: Stamped)
    requires Parse(t0, w).Some?
    ensures Parse(t0, w + [o]).Some? <==> MayFollow(t0, w, o)
  {
    PhaseIsKnown(t0, w);
    NextIsKnown(t0, w, o, Parse(t0, w).value);
    assert (w + [o])[..|w|] == w;
  }

  // ----- What may be shown

  /** Once the program has shown `w`, it can go on to show `o` if and only if `o` may follow. */
  lemma WhatFollows(t0: nat, w: seq<Stamped>, o: Stamped)
    requires Shows(t0, w)
    ensures Shows(t0, w + [o]) <==> MayFollow(t0, w, o)
  {
    ProgramLanguage(t0, w);
    ProgramLanguage(t0, w + [o]);
    FollowsIsNext(t0, w, o);
  }

  predicate EachFollows(t0: nat, w: seq<Stamped>) {
    forall k :: 0 <= k < |w| ==> MayFollow(t0, w[..k], w[k])
  }

  lemma {:induction false} EachFollowsIsParsed(t0: nat, w: seq<Stamped>)
    ensures EachFollows(t0, w) <==> Parse(t0, w).Some?
    decreases |w|
  {
    if w != [] {
      var m := |w| - 1;
      EachFollowsIsParsed(t0, w[..m]);
      assert forall k :: 0 <= k < m ==> w[..m][..k] == w[..k] && w[..m][k] == w[k];
      assert w == w[..m] + [w[m]];
      if Parse(t0, w[..m]).Some? { FollowsIsNext(t0, w[..m], w[m]); }
    }
  }

  /**
    The program's timed traces, without threads, token or grammar: it can show `w` if and only if everything in `w`
    may follow what comes before it.
   */
  lemma PlainLanguage(t0: nat, w: seq<Stamped>)
    ensures Shows(t0, w) <==> EachFollows(t0, w)
  {
    ProgramLanguage(t0, w);
    EachFollowsIsParsed(t0, w);
  }

  // ----- What this means for a visitor

  predicate ReadsDoor(o: Stamped, value: int) {
    o.obs.DoorReading? && o.obs.r.value == value
  }

  /** After the ring that ended at `i`, only an open door has been read up to `k`. */
  predicate OpenSince(w: seq<Stamped>, i: nat, k: nat) {
    && i < k <= |w| && w[i].obs == BellExpired
    && forall j :: i < j < k ==> ReadsDoor(w[j], 0)
  }

  lemma Following(t0: nat, w: seq<Stamped>, k: nat)
    requires Shows(t0, w) && 0 < k < |w|
    ensures MayFollow(t0, w[..k], w[k]) && w[..k][k - 1] == w[k - 1] && (k > 1 ==> w[..k][k - 2] == w[k - 2])
  {
    PlainLanguage(t0, w);
  }

  /**
    The monitor's door check, in every run: after a ring the door is read; while it is open, and only then, it is
    read again, and once it is not, the scan is switched on; a door found closed (1) at first sight is followed only
    by the end of a wait, at least 30 seconds later; and any other first value by nothing.
   */
  lemma DoorCheck(t0: nat, w: seq<Stamped>, i: nat, k: nat)
    requires Shows(t0, w) && OpenSince(w, i, k)
    ensures k < |w| ==> w[k].obs.DoorReading?
    ensures k + 1 < |w| && !ReadsDoor(w[k], 0) && k > i + 1 ==> w[k + 1].obs == ScanOn
    ensures k + 1 < |w| && !ReadsDoor(w[k], 0) && k == i + 1 ==>
              ReadsDoor(w[k], 1) && w[k + 1].obs.WaitPosted? && w[k + 1].time >= w[k].time + 30
  {
    if k < |w| { Following(t0, w, k); }
    if k + 1 < |w| { Following(t0, w, k + 1); }
  }

  /** A ring lasts 3 seconds, and the pause after the last retry 10 minutes, before anything else is shown. */
  lemma Pauses(t0: nat, w: seq<Stamped>, k: nat)
    requires Shows(t0, w) && k + 1 < |w|
    ensures w[k].obs == Ring ==> w[k + 1].obs == BellExpired && w[k + 1].time >= w[k].time + 3
    ensures w[k].obs == WaitPosted(DoorWaitRetryEnd) ==>
              w[k + 1].obs == ResetExpired && w[k + 1].time >= w[k].time + 600
  {
    Following(t0, w, k + 1);
    if w[k].obs.WaitPosted? && k > 0 {
      Following(t0, w, k);
      assert w[..k + 1][..k] == w[..k];
    }
    PlainLanguage(t0, w);
  }

  /** Who gets the bell to ring: motion 1, then a distance of 4 to 8, both from a sensor with status 0. */
  lemma Visitors(t0: nat, w: seq<Stamped>, k: nat)
    requires Shows(t0, w) && k + 1 < |w|
    ensures w[k].obs.DistanceReading? ==>
              && (w[k + 1].obs == Ring <==> w[k].obs.r.status == 0 && 4 <= w[k].obs.r.value <= 8)
              && (w[k + 1].obs.Reboot? <==> w[k].obs.r.status != 0)
    ensures w[k].obs.MotionReading? ==>
              && (w[k + 1].obs.DistanceReading? <==> w[k].obs.r.status == 0 && w[k].obs.r.value == 1)
              && (w[k + 1].obs.Reboot? <==> w[k].obs.r.status != 0)
  {
    Following(t0, w, k + 1);
  }
}
