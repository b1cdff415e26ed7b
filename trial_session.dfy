/**
 * The session state machine of the rotation experiment (the event loop of `run_experiment_3d`):
 * S and D record one `TrialResult` and advance to the next trial or finish; Escape and window
 * close only clear `running`; a left-button drag accumulates rotation while rotation is enabled.
 *
 * `Next` is the transition on one event, `AfterBatch` the processing of one polled batch of
 * events; `TrialController` holds the same state in mutable fields and is proved against them.
 */
module TrialSession {
  import opened Common
  import opened Stimuli
  import opened TrialPlanning

  /** One completed trial. `isMirror` and `isCorrect` may be Python `None`. */
  datatype TrialResult = TrialResult(
    trialNumber: nat,
    stimulusId: string,
    isMirror: Option<bool>,
    userResponse: bool,      // true = "different", false = "same"
    responseTime: real,
    isCorrect: Option<bool>,
    rotationEnabled: bool,
    disparity: real,
    initialAngle: real)

  /** Python truthiness of an optional boolean: `None` and `False` are falsy. */
  predicate Truthy(b: Option<bool>)
  {
    b == Some(true)
  }

  datatype Key = Escape | KeyS | KeyD | OtherKey

  /** The events the loop reacts to; every other event type is ignored. */
  datatype Event =
    | Quit
    | KeyDown(key: Key)
    | MouseDown(button: int, pos: Pos)
    | MouseUp(button: int)
    | MouseMotion(pos: Pos)
    | OtherEvent

  /**
   * The correctness rule: "same" (`different == false`) records `not is_mirror`, "different"
   * records `is_mirror` itself. With a `None` label, "same" is `not None == True` and
   * "different" is `None`.
   */
  function Correctness(different: bool, isMirror: Option<bool>): (c: Option<bool>)
    ensures isMirror.Some? ==> c == Some(different == isMirror.value)
    ensures isMirror.None? ==> c == (if different then None else Some(true))
  {
    if different then isMirror
    else match isMirror
      case None => Some(true)
      case Some(m) => Some(!m)
  }

  /** `math.sqrt` is foreign; the model only needs it to return the nonnegative square root. */
  ghost predicate IsSqrt(sqrt: real -> real)
  {
    forall c :: 0.0 <= c ==> 0.0 <= sqrt(c) && sqrt(c) * sqrt(c) == c
  }

  lemma SquareNonnegative(a: real)
    ensures 0.0 <= a * a
  {
  }

  /** `calculate_angular_disparity`: the Euclidean norm of the two accumulated rotations. */
  function CalculateAngularDisparity(sqrt: real -> real, initialAngleY: real, userRotX: real, userRotY: real): (d: real)
    requires IsSqrt(sqrt)
    ensures 0.0 <= d && d * d == userRotX * userRotX + userRotY * userRotY
  {
    SquareNonnegative(userRotX);
    SquareNonnegative(userRotY);
    sqrt(userRotX * userRotX + userRotY * userRotY)
  }

  /** Nonnegative square roots are unique. */
  lemma RootUnique(d: real, e: real)
    requires 0.0 <= d && 0.0 <= e && d * d == e * e
    ensures d == e
  {
    assert d * d - e * e == (d - e) * (d + e);
    if d + e != 0.0 {
      assert d - e == (d * d - e * e) / (d + e);
    }
  }

  /**
   * The disparity is THE norm: it equals every nonnegative root of `x*x + y*y`, whatever the
   * initial angle passed in and whichever exact square root is used.
   */
  lemma DisparityIsTheNorm(sqrt: real -> real, initialAngleY: real, x: real, y: real, d: real)
    requires IsSqrt(sqrt)
    requires 0.0 <= d && d * d == x * x + y * y
    ensures CalculateAngularDisparity(sqrt, initialAngleY, x, y) == d
  {
    RootUnique(CalculateAngularDisparity(sqrt, initialAngleY, x, y), d);
  }

  /** Without any rotation by the participant the disparity is 0, whatever the initial angle. */
  lemma DisparityOfNoRotation(sqrt: real -> real, initialAngleY: real)
    requires IsSqrt(sqrt)
    ensures CalculateAngularDisparity(sqrt, initialAngleY, 0.0, 0.0) == 0.0
  {
    RootUnique(CalculateAngularDisparity(sqrt, initialAngleY, 0.0, 0.0), 0.0);
  }

  /** The loop variables of `run_experiment_3d` between two events. */
  datatype Session = Session(
    currentTrial: nat,
    results: seq<TrialResult>,
    rotX: real,
    rotY: real,
    dragging: bool,
    lastPos: Option<Pos>,
    rotationEnabled: bool,
    startTime: real,
    running: bool)

  /** The state before the first event: trial 0, nothing recorded, clock started at `now`. */
  function Initial(trials: seq<Trial>, now: real): Session
    requires |trials| > 0
  {
    Session(0, [], 0.0, 0.0, false, None, trials[0].rotationEnabled, now, true)
  }

  predicate Finished(trials: seq<Trial>, s: Session)
  {
    s.currentTrial >= |trials|
  }

  /** Result `r` at position `k` is the record of planned trial `t`. */
  predicate Records(r: TrialResult, k: nat, t: Trial)
  {
    && r.trialNumber == k + 1
    && r.stimulusId == t.stimulus.id
    && r.isMirror == t.isMirror
    && r.isCorrect == Correctness(r.userResponse, t.isMirror)
    && r.rotationEnabled == t.rotationEnabled
    && r.initialAngle == AngleOrZero(t.stimulus)
    && 0.0 <= r.disparity
    // the figure cannot be turned in a trial without rotation
    && (!r.rotationEnabled ==> r.disparity == 0.0)
  }

  /**
   * The session invariant: one result per completed trial, numbered 1..k in order, each the
   * record of the trial at its position; the rotation flag is the current trial's.
   */
  predicate Inv(trials: seq<Trial>, s: Session)
  {
    && s.currentTrial <= |trials|
    && |s.results| == s.currentTrial
    && (s.currentTrial < |trials| ==> s.rotationEnabled == trials[s.currentTrial].rotationEnabled)
    && (s.dragging ==> s.lastPos.Some?)
    && (!s.rotationEnabled ==> s.rotX == 0.0 && s.rotY == 0.0)
    && (forall k :: 0 <= k < |s.results| ==> Records(s.results[k], k, trials[k]))
  }

  lemma InitialInv(trials: seq<Trial>, now: real)
    requires |trials| > 0
    ensures Inv(trials, Initial(trials, now)) && !Finished(trials, Initial(trials, now))
  {
  }

  /** The `TrialResult` an S (`different == false`) or D key press records. */
  function Record(trials: seq<Trial>, sqrt: real -> real, s: Session, different: bool, now: real): (r: TrialResult)
    requires IsSqrt(sqrt) && Inv(trials, s) && !Finished(trials, s)
    ensures Records(r, s.currentTrial, trials[s.currentTrial])
    ensures r.userResponse == different && r.responseTime == now - s.startTime
    ensures r.disparity * r.disparity == s.rotX * s.rotX + s.rotY * s.rotY
  {
    var t := trials[s.currentTrial];
    DisparityOfNoRotation(sqrt, t.stimulus.rotation.y);
    TrialResult(
      s.currentTrial + 1,
      t.stimulus.id,
      t.isMirror,
      different,
      now - s.startTime,
      Correctness(different, t.isMirror),
      s.rotationEnabled,
      CalculateAngularDisparity(sqrt, t.stimulus.rotation.y, s.rotX, s.rotY),
      AngleOrZero(t.stimulus))
  }

  /** An accepted response: append the record, then finish or start the next trial afresh. */
  function AfterResponse(trials: seq<Trial>, sqrt: real -> real, s: Session, different: bool, now: real): (r: Session)
    requires IsSqrt(sqrt) && Inv(trials, s) && !Finished(trials, s)
    ensures Inv(trials, r)
  {
    var results := s.results + [Record(trials, sqrt, s, different, now)];
    var n := s.currentTrial + 1;
    if n >= |trials| then
      s.(results := results, currentTrial := n, running := false)
    else
      s.(results := results, currentTrial := n, rotationEnabled := trials[n].rotationEnabled,
         rotX := 0.0, rotY := 0.0, startTime := now)
  }

  /** One event of the loop at clock reading `now`. */
  function Next(trials: seq<Trial>, sqrt: real -> real, s: Session, e: Event, now: real): (r: Session)
    requires IsSqrt(sqrt) && Inv(trials, s) && !Finished(trials, s)
    ensures Inv(trials, r)
    ensures r.currentTrial == s.currentTrial + (if IsResponse(e) then 1 else 0)
    ensures r.results[..|s.results|] == s.results
  {
    match e
    case Quit => s.(running := false)
    case KeyDown(k) =>
      if k == Escape then s.(running := false)
      else if k == KeyS then AfterResponse(trials, sqrt, s, false, now)
      else if k == KeyD then AfterResponse(trials, sqrt, s, true, now)
      else s
    case MouseDown(button, pos) =>
      if button == 1 && s.rotationEnabled then s.(dragging := true, lastPos := Some(pos)) else s
    case MouseUp(button) =>
      if button == 1 then s.(dragging := false) else s
    case MouseMotion(pos) =>
      if s.dragging && s.rotationEnabled then
        var dx := pos.x - s.lastPos.value.x;
        var dy := pos.y - s.lastPos.value.y;
        s.(rotY := s.rotY + dx as real * Sensitivity, rotX := s.rotX + dy as real * Sensitivity,
           lastPos := Some(pos))
      else s
    case OtherEvent => s
  }

  predicate IsResponse(e: Event)
  {
    e == KeyDown(KeyS) || e == KeyDown(KeyD)
  }

  /**
   * S and D append exactly one record, numbered `currentTrial + 1`, with the correctness rule;
   * then either the session finishes (running cleared) or the accumulators read (0, 0), the
   * clock restarts at `now` and the rotation flag is the next trial's.
   */
  lemma ResponseStep(trials: seq<Trial>, sqrt: real -> real, s: Session, e: Event, now: real)
    requires IsSqrt(sqrt) && Inv(trials, s) && !Finished(trials, s) && IsResponse(e)
    ensures var r := Next(trials, sqrt, s, e, now);
      && |r.results| == |s.results| + 1
      && r.results[..|s.results|] == s.results
      && r.currentTrial == s.currentTrial + 1
      && var res := r.results[|s.results|];
      && res.trialNumber == s.currentTrial + 1
      && res.userResponse == (e == KeyDown(KeyD))
      && res.isCorrect == Correctness(res.userResponse, trials[s.currentTrial].isMirror)
      && res.responseTime == now - s.startTime
      && (Finished(trials, r) ==> !r.running)
      && (!Finished(trials, r) ==>
            r.rotX == 0.0 && r.rotY == 0.0 && r.startTime == now
            && r.rotationEnabled == trials[r.currentTrial].rotationEnabled
            && r.running == s.running)
  {
    var different := e == KeyDown(KeyD);
    var r := AfterResponse(trials, sqrt, s, different, now);
    assert r.results[..|s.results|] == s.results;
  }

  /**
   * Motion moves the accumulators by half the pointer delta only while dragging in a
   * rotation-enabled trial; no other non-response event touches them.
   */
  lemma AccumulatorStep(trials: seq<Trial>, sqrt: real -> real, s: Session, e: Event, now: real)
    requires IsSqrt(sqrt) && Inv(trials, s) && !Finished(trials, s) && !IsResponse(e)
    ensures var r := Next(trials, sqrt, s, e, now);
      && r.results == s.results && r.currentTrial == s.currentTrial && r.startTime == s.startTime
      && (if e.MouseMotion? && s.dragging && s.rotationEnabled then
            r.rotY == s.rotY + (e.pos.x - s.lastPos.value.x) as real * Sensitivity
            && r.rotX == s.rotX + (e.pos.y - s.lastPos.value.y) as real * Sensitivity
          else r.rotX == s.rotX && r.rotY == s.rotY)
      && (r.dragging && !s.dragging ==> e.MouseDown? && e.button == 1 && s.rotationEnabled)
      && ((e == Quit || e == KeyDown(Escape)) ==> r == s.(running := false))
  {
  }

  /** The number of S/D presses in a batch. */
  function Responses(batch: seq<(Event, real)>): nat
  {
    if batch == [] then 0 else (if IsResponse(batch[0].0) then 1 else 0) + Responses(batch[1..])
  }

  /**
   * One polled batch of timestamped events. Quit and Escape do not stop the batch; the
   * response that completes the last trial does (`break`).
   */
  function AfterBatch(trials: seq<Trial>, sqrt: real -> real, s: Session, batch: seq<(Event, real)>): (r: Session)
    requires IsSqrt(sqrt) && Inv(trials, s)
    ensures Inv(trials, r)
    ensures s.currentTrial <= r.currentTrial && r.results[..|s.results|] == s.results
    decreases |batch|
  {
    if batch == [] || Finished(trials, s) then s
    else
      var s' := Next(trials, sqrt, s, batch[0].0, batch[0].1);
      var r := AfterBatch(trials, sqrt, s', batch[1..]);
      assert r.results[..|s.results|] == r.results[..|s'.results|][..|s.results|];
      r
  }

  /**
   * A batch records one result per S/D press, up to the number of trials left; presses after
   * the last trial is answered are not recorded.
   */
  lemma {:induction false} BatchRecordsResponses(trials: seq<Trial>, sqrt: real -> real, s: Session, batch: seq<(Event, real)>)
    requires IsSqrt(sqrt) && Inv(trials, s)
    ensures |AfterBatch(trials, sqrt, s, batch).results|
      == |s.results| + Min(Responses(batch), |trials| - s.currentTrial)
    decreases |batch|
  {
    if batch == [] {
    } else if Finished(trials, s) {
    } else {
      var s' := Next(trials, sqrt, s, batch[0].0, batch[0].1);
      BatchRecordsResponses(trials, sqrt, s', batch[1..]);
    }
  }

  /** A batch without S/D presses (quit, escape, mouse) records nothing and keeps the results. */
  lemma AbortKeepsResults(trials: seq<Trial>, sqrt: real -> real, s: Session, batch: seq<(Event, real)>)
    requires IsSqrt(sqrt) && Inv(trials, s) && Responses(batch) == 0
    ensures AfterBatch(trials, sqrt, s, batch).results == s.results
  {
    var r := AfterBatch(trials, sqrt, s, batch);
    BatchRecordsResponses(trials, sqrt, s, batch);
    assert r.results == r.results[..|s.results|];
  }

  /**
   * `while running`: one batch per frame while the loop is still running. A frame after Quit,
   * Escape or the last answer is never polled.
   */
  function AfterBatches(trials: seq<Trial>, sqrt: real -> real, s: Session, batches: seq<seq<(Event, real)>>)
    : (r: Session)
    requires IsSqrt(sqrt) && Inv(trials, s)
    ensures Inv(trials, r)
    ensures s.currentTrial <= r.currentTrial && r.results[..|s.results|] == s.results
    decreases |batches|
  {
    if batches == [] || !s.running then s
    else
      var s' := AfterBatch(trials, sqrt, s, batches[0]);
      var r := AfterBatches(trials, sqrt, s', batches[1..]);
      assert r.results[..|s.results|] == r.results[..|s'.results|][..|s.results|];
      r
  }

  /** The live state of one experiment session, updated in place by the event loop. */
  class TrialController {
    const trials: seq<Trial>
    const sqrt: real -> real
    var currentTrial: nat
    var results: seq<TrialResult>
    var responseRotX: real
    var responseRotY: real
    var mouseDragging: bool
    var lastMousePos: Option<Pos>
    var rotationEnabled: bool
    var startTime: real
    var running: bool

    function Snapshot(): Session
      reads this
    {
      Session(currentTrial, results, responseRotX, responseRotY, mouseDragging, lastMousePos,
              rotationEnabled, startTime, running)
    }

    ghost predicate Valid()
      reads this
    {
      IsSqrt(sqrt) && Inv(trials, Snapshot())
    }

    /** Loop set-up: the first trial is current and the clock starts at `now`. */
    constructor (trials: seq<Trial>, sqrt: real -> real, now: real)
      requires |trials| > 0 && IsSqrt(sqrt)
      ensures Valid() && this.trials == trials && this.sqrt == sqrt
      ensures Snapshot() == Initial(trials, now)
    {
      this.trials := trials;
      this.sqrt := sqrt;
      currentTrial := 0;
      results := [];
      startTime := now;
      responseRotX := 0.0;
      responseRotY := 0.0;
      mouseDragging := false;
      lastMousePos := None;
      rotationEnabled := trials[0].rotationEnabled;
      running := true;
    }

    /** The S and D branches: record the response, then finish or move to the next trial. */
    method Respond(different: bool, now: real)
      requires Valid() && !Finished(trials, Snapshot())
      modifies this
      ensures Valid()
      ensures Snapshot() == AfterResponse(trials, sqrt, old(Snapshot()), different, now)
    {
      ghost var before := Snapshot();
      ghost var after := AfterResponse(trials, sqrt, before, different, now);
      var result := Record(trials, sqrt, Snapshot(), different, now);
      results := results + [result];
      currentTrial := currentTrial + 1;
      if currentTrial >= |trials| {
        running := false;
        assert Snapshot() == after;
        return;
      }
      rotationEnabled := trials[currentTrial].rotationEnabled;
      responseRotX := 0.0;
      responseRotY := 0.0;
      startTime := now;
      assert Snapshot() == after;
    }

    /** One event of the loop. */
    method Step(e: Event, now: real)
      requires Valid() && !Finished(trials, Snapshot())
      modifies this
      ensures Valid()
      ensures Snapshot() == Next(trials, sqrt, old(Snapshot()), e, now)
    {
      match e
      case Quit =>
        running := false;
      case KeyDown(k) =>
        if k == Escape {
          running := false;
        } else if k == KeyS {
          Respond(false, now);
        } else if k == KeyD {
          Respond(true, now);
        }
      case MouseDown(button, pos) =>
        if button == 1 && rotationEnabled {
          mouseDragging := true;
          lastMousePos := Some(pos);
        }
      case MouseUp(button) =>
        if button == 1 {
          mouseDragging := false;
        }
      case MouseMotion(pos) =>
        if mouseDragging && rotationEnabled {
          var dx := pos.x - lastMousePos.value.x;
          var dy := pos.y - lastMousePos.value.y;
          responseRotY := responseRotY + dx as real * Sensitivity;
          responseRotX := responseRotX + dy as real * Sensitivity;
          lastMousePos := Some(pos);
        }
      case OtherEvent =>
    }

    /** `for event in pygame.event.get()`: handle a batch, leaving it once the last trial is answered. */
    method HandleBatch(batch: seq<(Event, real)>)
      requires Valid()
      modifies this
      ensures Valid()
      ensures Snapshot() == AfterBatch(trials, sqrt, old(Snapshot()), batch)
    {
      var i := 0;
      while i < |batch|
        invariant 0 <= i <= |batch|
        invariant Valid()
        invariant AfterBatch(trials, sqrt, Snapshot(), batch[i..]) == AfterBatch(trials, sqrt, old(Snapshot()), batch)
      {
        if Finished(trials, Snapshot()) {
          break;
        }
        assert batch[i..][1..] == batch[i + 1..];
        Step(batch[i].0, batch[i].1);
        i := i + 1;
      }
    }

    /** `while running`: one batch per frame until the session is finished or aborted. */
    method Run(batches: seq<seq<(Event, real)>>) returns (framesUsed: nat)
      requires Valid()
      modifies this
      ensures Valid() && framesUsed <= |batches|
      ensures framesUsed == |batches| || !running
      ensures Snapshot() == AfterBatches(trials, sqrt, old(Snapshot()), batches)
      ensures old(currentTrial) <= currentTrial && results[..|old(results)|] == old(results)
    {
      framesUsed := 0;
      while running && framesUsed < |batches|
        invariant Valid() && framesUsed <= |batches|
        invariant AfterBatches(trials, sqrt, Snapshot(), batches[framesUsed..])
          == AfterBatches(trials, sqrt, old(Snapshot()), batches)
      {
        assert batches[framesUsed..][1..] == batches[framesUsed + 1..];
        HandleBatch(batches[framesUsed]);
        framesUsed := framesUsed + 1;
      }
    }
  }
}
