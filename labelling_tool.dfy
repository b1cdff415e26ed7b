/**
 * The interactive labelling tool: browse the stimuli with the arrow keys (wrapping at both
 * ends, resetting the drag rotation), label the current one "same" (S) or "different" (D),
 * which writes the whole file back with only that record replaced, and rotate the right-hand
 * figure by dragging.
 */
module LabellingTool {
  import opened Common
  import opened Stimuli
  import opened StimulusFile

  /**
   * `load_all_stimuli`: `json.load` of the file (`None` when it does not parse, which raises),
   * then an empty list raises; anything else is returned as read.
   */
  function LoadAllStimuli(loaded: Option<seq<Stimulus>>): (r: Result<seq<Stimulus>>)
    ensures r.Err? <==> loaded.None? || loaded.value == []
    ensures r.Ok? ==> Some(r.value) == loaded
  {
    match loaded
    case None => Err("JSONDecodeError")
    case Some(data) => if data == [] then Err("Aucun stimulus trouvé dans le fichier") else Ok(data)
  }

  /** `(i + 1) % n`: the next stimulus, wrapping from the last to the first. */
  function NextIndex(i: nat, n: nat): (j: nat)
    requires i < n
    ensures j < n
    ensures i < n - 1 ==> j == i + 1
    ensures i == n - 1 ==> j == 0
  {
    (i + 1) % n
  }

  /** `(i - 1) % n` with Python's modulo: the previous stimulus, wrapping from the first to the last. */
  function PreviousIndex(i: nat, n: nat): (j: nat)
    requires i < n
    ensures j < n
    ensures 0 < i ==> j == i - 1
    ensures i == 0 ==> j == n - 1
  {
    (i - 1) % n
  }

  /** The two arrows undo each other. */
  lemma NavigationRoundTrip(i: nat, n: nat)
    requires i < n
    ensures PreviousIndex(NextIndex(i, n), n) == i
    ensures NextIndex(PreviousIndex(i, n), n) == i
  {
  }

  /** The index after `k` presses of the right arrow from `i`. */
  function Forward(i: nat, n: nat, k: nat): (j: nat)
    requires i < n
    ensures j < n
  {
    if k == 0 then i else NextIndex(Forward(i, n, k - 1), n)
  }

  /** Pressing `a + b` times is pressing `a` times, then `b` times. */
  lemma {:induction false} ForwardCompose(i: nat, n: nat, a: nat, b: nat)
    requires i < n
    ensures Forward(i, n, a + b) == Forward(Forward(i, n, a), n, b)
  {
    if b > 0 {
      ForwardCompose(i, n, a, b - 1);
    }
  }

  /** Before the end of the list the right arrow just counts up. */
  lemma {:induction false} ForwardCounts(i: nat, n: nat, k: nat)
    requires i + k < n
    ensures Forward(i, n, k) == i + k
  {
    if k > 0 {
      ForwardCounts(i, n, k - 1);
    }
  }

  /** `n` presses of the right arrow visit the whole list and come back to where they started. */
  lemma FullCircle(i: nat, n: nat)
    requires i < n
    ensures Forward(i, n, n) == i
  {
    ForwardCounts(i, n, n - i - 1);
    assert Forward(i, n, n - i) == 0;
    ForwardCompose(i, n, n - i, i);
    ForwardCounts(0, n, i);
  }

  /** Two stimulus lists that differ at most in their `is_mirror` labels. */
  predicate SameExceptLabels(a: seq<Stimulus>, b: seq<Stimulus>)
  {
    |a| == |b| && forall i :: 0 <= i < |a| ==> a[i].(isMirror := Absent) == b[i].(isMirror := Absent)
  }

  /**
   * What `save_stimulus_to_json` writes: the records read from disk with index `index` replaced
   * by the in-memory stimulus. Unreadable content or a file with too few records raise.
   */
  function Patched(onDisk: Option<seq<Stimulus>>, stimuli: seq<Stimulus>, index: nat): (r: Result<seq<Stimulus>>)
    requires index < |stimuli|
    ensures onDisk.None? ==> r.Err?
    ensures onDisk.Some? && index >= |onDisk.value| ==> r.Err?
    ensures onDisk.Some? && index < |onDisk.value| ==>
      && r.Ok?
      && |r.value| == |onDisk.value|
      && r.value[index] == stimuli[index]
      && forall k :: 0 <= k < |r.value| && k != index ==> r.value[k] == onDisk.value[k]
  {
    match onDisk
    case None => Err("JSONDecodeError")
    case Some(data) =>
      if index < |data| then Ok(data[index := stimuli[index]]) else Err("IndexError")
  }

  /** How handling one event ends: keep going, `quit()` on window close, or an uncaught exception. */
  datatype Outcome = Continue | Exit | Crash(reason: string)

  datatype LabelKey = RightArrow | LeftArrow | SameKey | DifferentKey | AnyOtherKey

  /** The events the tool's loop reacts to; every other event type is ignored. */
  datatype LabelEvent =
    | Close
    | Press(key: LabelKey)
    | ButtonDown(button: int, pos: Pos)
    | ButtonUp(button: int)
    | Drag(pos: Pos)
    | Ignored

  /** The tool's module-level variables, and the text of the stimulus file on disk. */
  datatype ToolState = ToolState(
    stimuli: seq<Stimulus>,
    index: nat,
    rotX: real,
    rotY: real,
    dragging: bool,
    lastPos: Option<Pos>,
    file: string)

  predicate ToolInv(t: ToolState)
  {
    && |t.stimuli| > 0
    && t.index < |t.stimuli|
    && (t.dragging ==> t.lastPos.Some?)
  }

  /** Memory and disk agree: the file reads back as exactly the stimuli in memory. */
  predicate InSync(load: string -> Option<seq<Stimulus>>, t: ToolState)
  {
    load(t.file) == Some(t.stimuli)
  }

  /**
   * `json.load` reads back whatever the one-object-per-line layout wrote, for every relabelling
   * of the stimulus list `base` (finitely many lists, so a parser can meet this).
   */
  ghost predicate ReadsLayoutFrom(load: string -> Option<seq<Stimulus>>, dumps: Stimulus -> string, base: seq<Stimulus>)
  {
    forall data :: SameExceptLabels(data, base) ==> load(Layout(Dumped(dumps, data))) == Some(data)
  }

  /** An arrow key: move to stimulus `i`, reset the rotation; printing its `angle` raises when it has none. */
  function Navigate(t: ToolState, i: nat): (r: (ToolState, Outcome))
    requires ToolInv(t) && i < |t.stimuli|
    ensures ToolInv(r.0)
  {
    (t.(index := i, rotX := 0.0, rotY := 0.0),
     if t.stimuli[i].angle.None? then Crash("KeyError: 'angle'") else Continue)
  }

  /** S or D: label the current stimulus in memory, then save; an exception in `save` ends the tool. */
  function Annotate(load: string -> Option<seq<Stimulus>>, dumps: Stimulus -> string, t: ToolState, mirror: bool)
    : (r: (ToolState, Outcome))
    requires ToolInv(t)
    ensures ToolInv(r.0) && SameExceptLabels(r.0.stimuli, t.stimuli)
  {
    var labelled := t.stimuli[t.index := t.stimuli[t.index].(isMirror := Label(mirror))];
    match Patched(load(t.file), labelled, t.index)
    case Ok(data) => (t.(stimuli := labelled, file := Layout(Dumped(dumps, data))), Continue)
    case Err(message) => (t.(stimuli := labelled), Crash(message))
  }

  /** One event of the tool's loop. */
  function ToolStep(load: string -> Option<seq<Stimulus>>, dumps: Stimulus -> string, t: ToolState, e: LabelEvent)
    : (r: (ToolState, Outcome))
    requires ToolInv(t)
    ensures ToolInv(r.0) && SameExceptLabels(r.0.stimuli, t.stimuli)
  {
    match e
    case Close => (t, Exit)
    case Press(k) =>
      if k == RightArrow then Navigate(t, NextIndex(t.index, |t.stimuli|))
      else if k == LeftArrow then Navigate(t, PreviousIndex(t.index, |t.stimuli|))
      else if k == SameKey then Annotate(load, dumps, t, false)
      else if k == DifferentKey then Annotate(load, dumps, t, true)
      else (t, Continue)
    case ButtonDown(button, pos) =>
      (if button == 1 then t.(dragging := true, lastPos := Some(pos)) else t, Continue)
    case ButtonUp(button) =>
      (if button == 1 then t.(dragging := false) else t, Continue)
    case Drag(pos) =>
      if t.dragging then
        var dx := pos.x - t.lastPos.value.x;
        var dy := pos.y - t.lastPos.value.y;
        (t.(rotY := t.rotY + dx as real * Sensitivity, rotX := t.rotX + dy as real * Sensitivity,
            lastPos := Some(pos)), Continue)
      else (t, Continue)
    case Ignored => (t, Continue)
  }

  /** `for event in pygame.event.get()`: events in order until one ends the program. */
  function ToolBatch(
    load: string -> Option<seq<Stimulus>>, dumps: Stimulus -> string, t: ToolState, batch: seq<LabelEvent>)
    : (r: (ToolState, Outcome, nat))
    requires ToolInv(t)
    ensures ToolInv(r.0) && SameExceptLabels(r.0.stimuli, t.stimuli)
    ensures r.2 <= |batch|
    decreases |batch|
  {
    if batch == [] then (t, Continue, 0)
    else
      var step := ToolStep(load, dumps, t, batch[0]);
      if step.1 != Continue then (step.0, step.1, 1)
      else
        var rest := ToolBatch(load, dumps, step.0, batch[1..]);
        (rest.0, rest.1, rest.2 + 1)
  }

  /**
   * The loop reads events until one does not continue: a batch ends early only on an exit or a
   * crash, that outcome is the last event handled, and it is an exit exactly when that event
   * closes the window.
   */
  lemma {:induction false} BatchOutcome(
    load: string -> Option<seq<Stimulus>>, dumps: Stimulus -> string, t: ToolState, batch: seq<LabelEvent>)
    requires ToolInv(t)
    ensures var (_, o, n) := ToolBatch(load, dumps, t, batch);
      && (n < |batch| ==> o != Continue)
      && (o == Continue ==> n == |batch|)
      && (o != Continue ==> 0 < n && (o == Exit <==> batch[n - 1] == Close))
      && ((forall k :: 0 <= k < |batch| ==> batch[k] != Close) ==> o != Exit)
    decreases |batch|
  {
    if batch != [] {
      ExitOnlyOnClose(load, dumps, t, batch[0]);
      BatchUnfold(load, dumps, t, batch);
      var step := ToolStep(load, dumps, t, batch[0]);
      if step.1 == Continue {
        BatchOutcome(load, dumps, step.0, batch[1..]);
        var rest := ToolBatch(load, dumps, step.0, batch[1..]);
        if rest.1 != Continue {
          assert batch[1..][rest.2 - 1] == batch[rest.2];
        }
      }
    }
  }

  /** One step of the fold over a batch. */
  lemma BatchUnfold(
    load: string -> Option<seq<Stimulus>>, dumps: Stimulus -> string, t: ToolState, batch: seq<LabelEvent>)
    requires ToolInv(t) && batch != []
    ensures var step := ToolStep(load, dumps, t, batch[0]);
      var r := ToolBatch(load, dumps, t, batch);
      && (step.1 != Continue ==> r == (step.0, step.1, 1))
      && (step.1 == Continue ==>
            var rest := ToolBatch(load, dumps, step.0, batch[1..]); r == (rest.0, rest.1, rest.2 + 1))
  {
  }

  /** After `handled` events, the rest of the batch finishes what the whole batch does. */
  ghost predicate Resumes(rest: (ToolState, Outcome, nat), handled: nat, all: (ToolState, Outcome, nat))
  {
    rest.0 == all.0 && rest.1 == all.1 && handled + rest.2 == all.2
  }

  /** Only closing the window exits. */
  lemma ExitOnlyOnClose(load: string -> Option<seq<Stimulus>>, dumps: Stimulus -> string, t: ToolState, e: LabelEvent)
    requires ToolInv(t)
    ensures ToolStep(load, dumps, t, e).1 == Exit <==> e == Close
  {
  }

  /**
   * The arrows move to the next or previous stimulus and reset the rotation; the stimuli, the
   * file and the drag are untouched. They raise exactly when the new stimulus has no `angle`.
   */
  lemma NavigationStep(load: string -> Option<seq<Stimulus>>, dumps: Stimulus -> string, t: ToolState, k: LabelKey)
    requires ToolInv(t) && (k == RightArrow || k == LeftArrow)
    ensures var (r, o) := ToolStep(load, dumps, t, Press(k));
      && r.index == (if k == RightArrow then NextIndex(t.index, |t.stimuli|) else PreviousIndex(t.index, |t.stimuli|))
      && r.rotX == 0.0 && r.rotY == 0.0
      && r.stimuli == t.stimuli && r.file == t.file
      && r.dragging == t.dragging && r.lastPos == t.lastPos
      && (o.Crash? <==> t.stimuli[r.index].angle.None?) && (o.Continue? <==> !o.Crash?)
  {
  }

  /**
   * S and D set only the current label in memory and write the patched disk records back; when
   * saving raises, the file is untouched and the tool ends. Index, rotation and drag are kept.
   */
  lemma LabelStep(load: string -> Option<seq<Stimulus>>, dumps: Stimulus -> string, t: ToolState, k: LabelKey)
    requires ToolInv(t) && (k == SameKey || k == DifferentKey)
    ensures var (r, o) := ToolStep(load, dumps, t, Press(k));
      && r.stimuli == t.stimuli[t.index := t.stimuli[t.index].(isMirror := Label(k == DifferentKey))]
      && r.index == t.index && r.rotX == t.rotX && r.rotY == t.rotY
      && r.dragging == t.dragging && r.lastPos == t.lastPos
      && var saved := Patched(load(t.file), r.stimuli, t.index);
      && (saved.Ok? ==> o == Continue && r.file == Layout(Dumped(dumps, saved.value)))
      && (saved.Err? ==> o.Crash? && r.file == t.file)
  {
  }

  /**
   * Mouse events never touch the stimuli, the index or the file. Button 1 starts and stops a
   * drag; motion while dragging turns the right figure by half the pointer delta.
   */
  lemma PointerStep(load: string -> Option<seq<Stimulus>>, dumps: Stimulus -> string, t: ToolState, e: LabelEvent)
    requires ToolInv(t) && (e.ButtonDown? || e.ButtonUp? || e.Drag?)
    ensures var (r, o) := ToolStep(load, dumps, t, e);
      && o == Continue && r.stimuli == t.stimuli && r.index == t.index && r.file == t.file
      && (e.ButtonDown? ==>
            r.rotX == t.rotX && r.rotY == t.rotY
            && (if e.button == 1 then r.dragging && r.lastPos == Some(e.pos)
                else r.dragging == t.dragging && r.lastPos == t.lastPos))
      && (e.ButtonUp? ==>
            r.rotX == t.rotX && r.rotY == t.rotY && r.lastPos == t.lastPos
            && r.dragging == (t.dragging && e.button != 1))
      && (e.Drag? ==>
            r.dragging == t.dragging
            && (if t.dragging then
                  r.rotY == t.rotY + (e.pos.x - t.lastPos.value.x) as real * Sensitivity
                  && r.rotX == t.rotX + (e.pos.y - t.lastPos.value.y) as real * Sensitivity
                  && r.lastPos == Some(e.pos)
                else r.rotX == t.rotX && r.rotY == t.rotY && r.lastPos == t.lastPos))
  {
  }

  /**
   * Every event keeps memory and disk in agreement when `json.load` reads the layout back; then
   * S and D never raise, since the re-read file has the current index.
   */
  lemma SyncStep(
    load: string -> Option<seq<Stimulus>>, dumps: Stimulus -> string, base: seq<Stimulus>, t: ToolState, e: LabelEvent)
    requires ToolInv(t) && ReadsLayoutFrom(load, dumps, base) && SameExceptLabels(t.stimuli, base) && InSync(load, t)
    ensures InSync(load, ToolStep(load, dumps, t, e).0) && SameExceptLabels(ToolStep(load, dumps, t, e).0.stimuli, base)
    ensures e == Press(SameKey) || e == Press(DifferentKey) ==> ToolStep(load, dumps, t, e).1 == Continue
  {
    if e == Press(SameKey) || e == Press(DifferentKey) {
      var labelled := t.stimuli[t.index := t.stimuli[t.index].(isMirror := Label(e == Press(DifferentKey)))];
      assert Patched(load(t.file), labelled, t.index) == Ok(labelled);
      assert SameExceptLabels(labelled, base);
      assert load(Layout(Dumped(dumps, labelled))) == Some(labelled);
    }
  }

  /** A whole batch keeps memory and disk in agreement. */
  lemma {:induction false} SyncBatch(
    load: string -> Option<seq<Stimulus>>, dumps: Stimulus -> string, base: seq<Stimulus>, t: ToolState,
    batch: seq<LabelEvent>)
    requires ToolInv(t) && ReadsLayoutFrom(load, dumps, base) && SameExceptLabels(t.stimuli, base) && InSync(load, t)
    ensures InSync(load, ToolBatch(load, dumps, t, batch).0)
    ensures SameExceptLabels(ToolBatch(load, dumps, t, batch).0.stimuli, base)
    decreases |batch|
  {
    if batch != [] {
      SyncStep(load, dumps, base, t, batch[0]);
      var step := ToolStep(load, dumps, t, batch[0]);
      if step.1 == Continue {
        SyncBatch(load, dumps, base, step.0, batch[1..]);
      }
    }
  }

  /** The module-level state of the tool, updated in place by its event loop. */
  class Labeller {
    var stimuli: seq<Stimulus>
    var currentIndex: nat
    var rightRotationX: real
    var rightRotationY: real
    var mouseDragging: bool
    var lastMousePos: Option<Pos>
    /** The text of the stimulus file on disk. */
    var file: string
    /** `json.load` of the whole file and `json.dumps` of one record (foreign). */
    const load: string -> Option<seq<Stimulus>>
    const dumps: Stimulus -> string

    function Snapshot(): ToolState
      reads this
    {
      ToolState(stimuli, currentIndex, rightRotationX, rightRotationY, mouseDragging, lastMousePos, file)
    }

    ghost predicate Valid()
      reads this
    {
      ToolInv(Snapshot())
    }

    /** Start-up: the stimuli are `load_all_stimuli` of the file, the first one shown, no rotation. */
    constructor (file: string, load: string -> Option<seq<Stimulus>>, dumps: Stimulus -> string)
      requires LoadAllStimuli(load(file)).Ok?
      ensures Valid() && InSync(load, Snapshot())
      ensures stimuli == LoadAllStimuli(load(file)).value && currentIndex == 0 && this.file == file
      ensures rightRotationX == 0.0 && rightRotationY == 0.0 && !mouseDragging && lastMousePos == None
      ensures this.load == load && this.dumps == dumps
    {
      stimuli := LoadAllStimuli(load(file)).value;
      currentIndex := 0;
      rightRotationX := 0.0;
      rightRotationY := 0.0;
      mouseDragging := false;
      lastMousePos := None;
      this.file := file;
      this.load := load;
      this.dumps := dumps;
    }

    /** The right arrow. */
    method ShowNext()
      requires Valid()
      modifies this
      ensures Valid()
      ensures stimuli == old(stimuli) && file == old(file)
      ensures currentIndex == NextIndex(old(currentIndex), |stimuli|)
      ensures rightRotationX == 0.0 && rightRotationY == 0.0
      ensures mouseDragging == old(mouseDragging) && lastMousePos == old(lastMousePos)
    {
      currentIndex := (currentIndex + 1) % |stimuli|;
      rightRotationX := 0.0;
      rightRotationY := 0.0;
    }

    /** The left arrow. */
    method ShowPrevious()
      requires Valid()
      modifies this
      ensures Valid()
      ensures stimuli == old(stimuli) && file == old(file)
      ensures currentIndex == PreviousIndex(old(currentIndex), |stimuli|)
      ensures rightRotationX == 0.0 && rightRotationY == 0.0
      ensures mouseDragging == old(mouseDragging) && lastMousePos == old(lastMousePos)
    {
      currentIndex := (currentIndex - 1) % |stimuli|;
      rightRotationX := 0.0;
      rightRotationY := 0.0;
    }

    /** `save_stimulus_to_json`: re-read the file, patch the current record, rewrite it all. */
    method Save() returns (r: Result<seq<Stimulus>>)
      requires Valid()
      modifies this
      ensures Valid()
      ensures r == Patched(load(old(file)), stimuli, currentIndex)
      ensures r.Ok? ==> file == Layout(Dumped(dumps, r.value))
      ensures r.Err? ==> file == old(file)
      ensures stimuli == old(stimuli) && currentIndex == old(currentIndex)
      ensures rightRotationX == old(rightRotationX) && rightRotationY == old(rightRotationY)
      ensures mouseDragging == old(mouseDragging) && lastMousePos == old(lastMousePos)
    {
      var data := load(file);
      if data.None? {
        return Err("JSONDecodeError");
      }
      if currentIndex >= |data.value| {
        return Err("IndexError");
      }
      var patched := data.value[currentIndex := stimuli[currentIndex]];
      file := WriteRecords(dumps, patched);
      r := Ok(patched);
    }

    /** S (`mirror == false`) and D (`mirror == true`): label the current stimulus in memory, then save. */
    method SetLabel(mirror: bool) returns (r: Result<seq<Stimulus>>)
      requires Valid()
      modifies this
      ensures Valid()
      ensures |stimuli| == |old(stimuli)|
      ensures stimuli[currentIndex] == old(stimuli)[currentIndex].(isMirror := Label(mirror))
      ensures forall k :: 0 <= k < |stimuli| && k != currentIndex ==> stimuli[k] == old(stimuli)[k]
      ensures r == Patched(load(old(file)), stimuli, currentIndex)
      ensures r.Ok? ==> file == Layout(Dumped(dumps, r.value))
      ensures r.Err? ==> file == old(file)
      ensures currentIndex == old(currentIndex)
      ensures rightRotationX == old(rightRotationX) && rightRotationY == old(rightRotationY)
      ensures mouseDragging == old(mouseDragging) && lastMousePos == old(lastMousePos)
    {
      stimuli := stimuli[currentIndex := stimuli[currentIndex].(isMirror := Label(mirror))];
      r := Save();
    }

    /** A key press: the arrows navigate, S and D label and save, other keys do nothing. */
    method PressKey(k: LabelKey) returns (outcome: Outcome)
      requires Valid()
      modifies this
      ensures Valid()
      ensures (Snapshot(), outcome) == ToolStep(load, dumps, old(Snapshot()), Press(k))
    {
      outcome := Continue;
      if k == RightArrow || k == LeftArrow {
        if k == RightArrow {
          ShowNext();
        } else {
          ShowPrevious();
        }
        if stimuli[currentIndex].angle.None? {
          outcome := Crash("KeyError: 'angle'");
        }
      } else if k == SameKey || k == DifferentKey {
        ghost var before := Snapshot();
        var saved := SetLabel(k == DifferentKey);
        assert stimuli == before.stimuli[before.index := before.stimuli[before.index].(isMirror := Label(k == DifferentKey))];
        if saved.Err? {
          outcome := Crash(saved.message);
        }
      }
    }

    /** A mouse event: button 1 starts and ends a drag, motion while dragging turns the right figure. */
    method Pointer(e: LabelEvent)
      requires Valid() && (e.ButtonDown? || e.ButtonUp? || e.Drag?)
      modifies this
      ensures Valid()
      ensures (Snapshot(), Continue) == ToolStep(load, dumps, old(Snapshot()), e)
    {
      match e {
      case ButtonDown(button, pos) =>
        if button == 1 {
          mouseDragging := true;
          lastMousePos := Some(pos);
        }
      case ButtonUp(button) =>
        if button == 1 {
          mouseDragging := false;
        }
      case Drag(pos) =>
        if mouseDragging {
          var dx := pos.x - lastMousePos.value.x;
          var dy := pos.y - lastMousePos.value.y;
          rightRotationY := rightRotationY + dx as real * Sensitivity;
          rightRotationX := rightRotationX + dy as real * Sensitivity;
          lastMousePos := Some(pos);
        }
      }
    }

    /** One event of the tool's loop. */
    method Step(e: LabelEvent) returns (outcome: Outcome)
      requires Valid()
      modifies this
      ensures Valid()
      ensures SameExceptLabels(stimuli, old(stimuli))
      ensures (Snapshot(), outcome) == ToolStep(load, dumps, old(Snapshot()), e)
      ensures ReadsLayoutFrom(load, dumps, old(stimuli)) && InSync(load, old(Snapshot())) ==> InSync(load, Snapshot())
    {
      ghost var before := Snapshot();
      outcome := Continue;
      match e {
      case Close =>
        outcome := Exit;
      case Press(k) =>
        outcome := PressKey(k);
      case ButtonDown(_, _) =>
        Pointer(e);
      case ButtonUp(_) =>
        Pointer(e);
      case Drag(_) =>
        Pointer(e);
      case Ignored =>
      }
      if ReadsLayoutFrom(load, dumps, before.stimuli) && InSync(load, before) {
        SyncStep(load, dumps, before.stimuli, before, e);
      }
    }

    /**
     * `for event in pygame.event.get()`: events in order until one ends the program. Whatever
     * happens, the stimuli keep their number, order and content apart from their labels.
     */
    method HandleBatch(batch: seq<LabelEvent>) returns (outcome: Outcome, handled: nat)
      requires Valid()
      modifies this
      ensures Valid()
      ensures (Snapshot(), outcome, handled) == ToolBatch(load, dumps, old(Snapshot()), batch)
      ensures SameExceptLabels(stimuli, old(stimuli))
      ensures ReadsLayoutFrom(load, dumps, old(stimuli)) && InSync(load, old(Snapshot())) ==> InSync(load, Snapshot())
    {
      if ReadsLayoutFrom(load, dumps, stimuli) && InSync(load, Snapshot()) {
        SyncBatch(load, dumps, stimuli, Snapshot(), batch);
      }
      ghost var all := ToolBatch(load, dumps, Snapshot(), batch);
      outcome := Continue;
      handled := 0;
      while handled < |batch|
        invariant 0 <= handled <= |batch|
        invariant Valid()
        invariant SameExceptLabels(stimuli, old(stimuli))
        invariant outcome == Continue
        invariant Resumes(ToolBatch(load, dumps, Snapshot(), batch[handled..]), handled, all)
      {
        ghost var t := Snapshot();
        BatchUnfold(load, dumps, t, batch[handled..]);
        assert batch[handled..][1..] == batch[handled + 1..];
        outcome := Step(batch[handled]);
        handled := handled + 1;
        if outcome != Continue {
          return;
        }
      }
    }
  }

  /** The tool's start: `load_all_stimuli` raises on an unreadable or empty file, and the tool never opens. */
  method Open(file: string, load: string -> Option<seq<Stimulus>>, dumps: Stimulus -> string)
    returns (r: Result<Labeller>)
    ensures r.Err? <==> LoadAllStimuli(load(file)).Err?
    ensures r.Err? ==> r.message == LoadAllStimuli(load(file)).message
    ensures r.Ok? ==> fresh(r.value) && r.value.Valid() && InSync(load, r.value.Snapshot())
    ensures r.Ok? ==> r.value.Snapshot() == ToolState(LoadAllStimuli(load(file)).value, 0, 0.0, 0.0, false, None, file)
  {
    var loaded := LoadAllStimuli(load(file));
    if loaded.Err? {
      return Err(loaded.message);
    }
    var tool := new Labeller(file, load, dumps);
    r := Ok(tool);
  }
}
