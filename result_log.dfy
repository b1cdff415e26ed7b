/**
 * The results file of the rotation experiment: every `TrialResult` becomes a JSON object with
 * nine keys in a fixed order, and the analyses read the angle, time and correctness columns
 * back out of those objects.
 */
module ResultLog {
  import opened Common
  import opened TrialSession

  /** The JSON scalars a result record holds. */
  datatype Json = JNull | JBool(b: bool) | JInt(i: int) | JNum(r: real) | JStr(s: string)

  /** The nine keys of a result record, in the order the record is built. */
  datatype Field =
    | TrialNumber | StimulusId | IsMirror | UserResponse | ResponseTime
    | IsCorrectKey | RotationEnabled | Disparity | InitialAngle

  /** The key text written to the file for each field. */
  function KeyName(f: Field): string
  {
    match f
    case TrialNumber => "trial_number"
    case StimulusId => "stimulus_id"
    case IsMirror => "is_mirror"
    case UserResponse => "user_response"
    case ResponseTime => "response_time"
    case IsCorrectKey => "is_correct"
    case RotationEnabled => "rotation_enabled"
    case Disparity => "disparity"
    case InitialAngle => "initial_angle"
  }

  const Keys: seq<Field> := [
    TrialNumber, StimulusId, IsMirror, UserResponse, ResponseTime,
    IsCorrectKey, RotationEnabled, Disparity, InitialAngle]

  /** A JSON object: the value under each key present. */
  type Record = map<Field, Json>

  function OptBool(b: Option<bool>): Json
  {
    match b
    case None => JNull
    case Some(v) => JBool(v)
  }

  /** `rec[key]`; `None` plays the `KeyError` of a missing key. */
  function Lookup(rec: Record, key: Field): Option<Json>
  {
    if key in rec then Some(rec[key]) else None
  }

  function GetNat(rec: Record, key: Field): Option<nat>
  {
    match Lookup(rec, key)
    case Some(JInt(n)) => if n < 0 then None else Some(n)
    case _ => None
  }

  function GetReal(rec: Record, key: Field): Option<real>
  {
    match Lookup(rec, key)
    case Some(JNum(x)) => Some(x)
    case _ => None
  }

  function GetBool(rec: Record, key: Field): Option<bool>
  {
    match Lookup(rec, key)
    case Some(JBool(b)) => Some(b)
    case _ => None
  }

  function GetString(rec: Record, key: Field): Option<string>
  {
    match Lookup(rec, key)
    case Some(JStr(x)) => Some(x)
    case _ => None
  }

  /** A value that may be JSON `null`. */
  function GetOptBool(rec: Record, key: Field): Option<Option<bool>>
  {
    match Lookup(rec, key)
    case Some(JNull) => Some(None)
    case Some(JBool(b)) => Some(Some(b))
    case _ => None
  }

  /** Reading one record back: `None` when a key is missing or holds a value of the wrong kind. */
  function FromRecord(rec: Record): Option<TrialResult>
  {
    var n := GetNat(rec, TrialNumber);
    var id := GetString(rec, StimulusId);
    var m := GetOptBool(rec, IsMirror);
    var u := GetBool(rec, UserResponse);
    var t := GetReal(rec, ResponseTime);
    var c := GetOptBool(rec, IsCorrectKey);
    var rot := GetBool(rec, RotationEnabled);
    var d := GetReal(rec, Disparity);
    var a := GetReal(rec, InitialAngle);
    if n.Some? && id.Some? && m.Some? && u.Some? && t.Some? && c.Some? && rot.Some? && d.Some? && a.Some?
    then Some(TrialResult(n.value, id.value, m.value, u.value, t.value, c.value, rot.value, d.value, a.value))
    else None
  }

  /** The dictionary built for one result: the nine keys in the order of the dataclass. */
  function ToRecord(r: TrialResult): (rec: Record)
    ensures forall i :: 0 <= i < |Keys| ==> Keys[i] in rec
  {
    map[
      TrialNumber := JInt(r.trialNumber),
      StimulusId := JStr(r.stimulusId),
      IsMirror := OptBool(r.isMirror),
      UserResponse := JBool(r.userResponse),
      ResponseTime := JNum(r.responseTime),
      IsCorrectKey := OptBool(r.isCorrect),
      RotationEnabled := JBool(r.rotationEnabled),
      Disparity := JNum(r.disparity),
      InitialAngle := JNum(r.initialAngle)]
  }

  /** Nothing is lost in a record: reading it back gives the same result. */
  lemma RecordRoundTrip(r: TrialResult)
    ensures FromRecord(ToRecord(r)) == Some(r)
  {
    var rec := ToRecord(r);
    assert GetNat(rec, TrialNumber) == Some(r.trialNumber);
    assert GetString(rec, StimulusId) == Some(r.stimulusId);
    assert GetOptBool(rec, IsMirror) == Some(r.isMirror);
    assert GetBool(rec, UserResponse) == Some(r.userResponse);
    assert GetReal(rec, ResponseTime) == Some(r.responseTime);
    assert GetOptBool(rec, IsCorrectKey) == Some(r.isCorrect);
    assert GetBool(rec, RotationEnabled) == Some(r.rotationEnabled);
    assert GetReal(rec, Disparity) == Some(r.disparity);
    assert GetReal(rec, InitialAngle) == Some(r.initialAngle);
  }

  /** The loop that builds `results_dict`: one record per result, in order. */
  method SerializeResults(results: seq<TrialResult>) returns (out: seq<Record>)
    ensures |out| == |results|
    ensures forall i :: 0 <= i < |out| ==> out[i] == ToRecord(results[i])
    ensures forall i :: 0 <= i < |out| ==> FromRecord(out[i]) == Some(results[i])
  {
    out := [];
    var i := 0;
    while i < |results|
      invariant 0 <= i <= |results|
      invariant |out| == i
      invariant forall k :: 0 <= k < i ==> out[k] == ToRecord(results[k])
      invariant forall k :: 0 <= k < i ==> FromRecord(out[k]) == Some(results[k])
    {
      RecordRoundTrip(results[i]);
      out := out + [ToRecord(results[i])];
      i := i + 1;
    }
  }

  /** `r['is_correct']` used as a condition: `None` counts as incorrect. */
  predicate IsCorrect(r: TrialResult)
  {
    Truthy(r.isCorrect)
  }

  predicate IsIncorrect(r: TrialResult)
  {
    !Truthy(r.isCorrect)
  }

  /** `[r['initial_angle'] for r in rs]`. */
  function Angles(rs: seq<TrialResult>): (a: seq<real>)
    ensures |a| == |rs| && forall i :: 0 <= i < |rs| ==> a[i] == rs[i].initialAngle
  {
    seq(|rs|, i requires 0 <= i < |rs| => rs[i].initialAngle)
  }

  /** `[r['response_time'] for r in rs]`. */
  function Times(rs: seq<TrialResult>): (t: seq<real>)
    ensures |t| == |rs| && forall i :: 0 <= i < |rs| ==> t[i] == rs[i].responseTime
  {
    seq(|rs|, i requires 0 <= i < |rs| => rs[i].responseTime)
  }

  /**
   * The correct/incorrect split: the two parts keep input order, hold every result exactly once
   * between them, and each part holds only results of its kind.
   */
  lemma CorrectnessPartition(rs: seq<TrialResult>)
    ensures |Filter(rs, IsCorrect)| + |Filter(rs, IsIncorrect)| == |rs|
    ensures multiset(Filter(rs, IsCorrect)) + multiset(Filter(rs, IsIncorrect)) == multiset(rs)
    ensures forall r :: r in Filter(rs, IsCorrect) ==> Truthy(r.isCorrect)
    ensures forall r :: r in Filter(rs, IsIncorrect) ==> !Truthy(r.isCorrect)
    ensures forall r :: r in rs ==> (r in Filter(rs, IsCorrect) <==> Truthy(r.isCorrect))
  {
    FilterComplement(rs, IsCorrect, IsIncorrect);
    forall r | r in rs && Truthy(r.isCorrect) ensures r in Filter(rs, IsCorrect) {
      FilterKeeps(rs, IsCorrect, r);
    }
  }
}
