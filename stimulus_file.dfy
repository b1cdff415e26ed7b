/**
 * The stimulus file as the labelling tool rewrites it: `[`, one compact JSON object per line
 * with a comma after every object but the last, then `]`. `json.dumps` and `json.loads` of a
 * single object are foreign and passed in as functions.
 */
module StimulusFile {
  import opened Common
  import opened Stimuli

  /** The line written for object `i` of `objs`: the object, a comma unless it is the last, a newline. */
  function Entry(objs: seq<string>, i: nat): string
    requires i < |objs|
  {
    objs[i] + (if i < |objs| - 1 then "," else "") + "\n"
  }

  /** The lines of objects `k..` in order. */
  function EntriesFrom(objs: seq<string>, k: nat): string
    requires k <= |objs|
    decreases |objs| - k
  {
    if k == |objs| then "" else Entry(objs, k) + EntriesFrom(objs, k + 1)
  }

  /** The whole file for the serialised objects `objs`. */
  function Layout(objs: seq<string>): string
  {
    "[\n" + EntriesFrom(objs, 0) + "]"
  }

  /** `json.dumps(obj, separators=(',', ':'))` of every record, in order. */
  function Dumped(dumps: Stimulus -> string, data: seq<Stimulus>): (objs: seq<string>)
    ensures |objs| == |data| && forall i :: 0 <= i < |data| ==> objs[i] == dumps(data[i])
  {
    seq(|data|, i requires 0 <= i < |data| => dumps(data[i]))
  }

  /** The writing loop of `save_stimulus_to_json`. */
  method WriteRecords(dumps: Stimulus -> string, data: seq<Stimulus>) returns (text: string)
    ensures text == Layout(Dumped(dumps, data))
  {
    var objs := Dumped(dumps, data);
    text := "[\n";
    var i := 0;
    while i < |data|
      invariant 0 <= i <= |data|
      invariant text + EntriesFrom(objs, i) == Layout(objs)[..|Layout(objs)| - 1]
    {
      var objStr := dumps(data[i]);
      text := text + objStr;
      if i < |data| - 1 {
        text := text + ",";
      }
      text := text + "\n";
      assert text + EntriesFrom(objs, i + 1) == (text[..|text| - |Entry(objs, i)|] + Entry(objs, i)) + EntriesFrom(objs, i + 1);
      i := i + 1;
    }
    text := text + "]";
  }

  /** `str.split('\n')`: the pieces between newlines, always at least one. */
  function SplitLines(t: string): (ls: seq<string>)
    ensures |ls| >= 1
  {
    if t == [] then [""]
    else if t[0] == '\n' then [""] + SplitLines(t[1..])
    else
      var rest := SplitLines(t[1..]);
      [[t[0]] + rest[0]] + rest[1..]
  }

  /** A line without a newline comes off the front as one piece. */
  lemma {:induction false} SplitFirstLine(s: string, rest: string)
    requires '\n' !in s
    ensures SplitLines(s + "\n" + rest) == [s] + SplitLines(rest)
    decreases |s|
  {
    if s == [] {
      assert s + "\n" + rest == ['\n'] + rest;
    } else {
      var t := s + "\n" + rest;
      SplitFirstLine(s[1..], rest);
      assert t[0] == s[0] && s[0] in s;
      assert t[1..] == s[1..] + "\n" + rest;
      assert [s[0]] + s[1..] == s;
    }
  }

  /** Each object with its separating comma, one per line. */
  function Pieces(objs: seq<string>): (ps: seq<string>)
    ensures |ps| == |objs|
  {
    seq(|objs|, i requires 0 <= i < |objs| => objs[i] + (if i < |objs| - 1 then "," else ""))
  }

  lemma {:induction false} SplitEntries(objs: seq<string>, k: nat)
    requires k <= |objs|
    requires forall i :: 0 <= i < |objs| ==> '\n' !in objs[i]
    ensures SplitLines(EntriesFrom(objs, k)) == Pieces(objs)[k..] + [""]
    decreases |objs| - k
  {
    if k < |objs| {
      var piece := Pieces(objs)[k];
      assert '\n' !in piece by {
        assert piece == objs[k] + (if k < |objs| - 1 then "," else "");
      }
      assert Entry(objs, k) == piece + "\n";
      SplitFirstLine(piece, EntriesFrom(objs, k + 1));
      SplitEntries(objs, k + 1);
      assert Pieces(objs)[k..] == [piece] + Pieces(objs)[k + 1..];
    }
  }

  /** Drops the comma that separates every object but the last; `None` when one is missing. */
  function Unpiece(ps: seq<string>): (objs: Option<seq<string>>)
    ensures objs.Some? ==> |objs.value| == |ps|
  {
    if forall i :: 0 <= i < |ps| - 1 ==> |ps[i]| > 0 && ps[i][|ps[i]| - 1] == ','
    then Some(seq(|ps|, i requires 0 <= i < |ps| => if i < |ps| - 1 then ps[i][..|ps[i]| - 1] else ps[i]))
    else None
  }

  /** `json.loads` of every object; `None` when one does not parse. */
  function LoadAll(loads: string -> Option<Stimulus>, objs: seq<string>): (data: Option<seq<Stimulus>>)
    ensures data.Some? ==> |data.value| == |objs|
  {
    if forall i :: 0 <= i < |objs| ==> loads(objs[i]).Some?
    then Some(seq(|objs|, i requires 0 <= i < |objs| => loads(objs[i]).value))
    else None
  }

  /** Reading a file of this layout back, line by line. */
  function ReadRecords(loads: string -> Option<Stimulus>, text: string): Option<seq<Stimulus>>
  {
    if |text| < 3 || text[..2] != "[\n" || text[|text| - 1] != ']' then None
    else
      var lines := SplitLines(text[2..|text| - 1]);
      if lines[|lines| - 1] != "" then None
      else
        match Unpiece(lines[..|lines| - 1])
        case None => None
        case Some(objs) => LoadAll(loads, objs)
  }

  /** The text between the opening `[` line and the closing `]` is the object lines. */
  lemma LayoutFrame(objs: seq<string>)
    ensures var text := Layout(objs);
      |text| >= 3 && text[..2] == "[\n" && text[|text| - 1] == ']'
      && text[2..|text| - 1] == EntriesFrom(objs, 0)
  {
    var text := Layout(objs);
    assert text == "[\n" + EntriesFrom(objs, 0) + "]";
  }

  /** Dropping the separating commas gives back the objects. */
  lemma UnpieceInverse(objs: seq<string>)
    ensures Unpiece(Pieces(objs)) == Some(objs)
  {
    var ps := Pieces(objs);
    forall i | 0 <= i < |ps| - 1
      ensures |ps[i]| > 0 && ps[i][|ps[i]| - 1] == ',' && ps[i][..|ps[i]| - 1] == objs[i]
    {
      assert ps[i] == objs[i] + ",";
    }
    if |ps| > 0 {
      var last := |ps| - 1;
      assert ps[last] == objs[last] + "";
      assert objs[last] + "" == objs[last];
    }
    var unpieced := seq(|ps|, i requires 0 <= i < |ps| => if i < |ps| - 1 then ps[i][..|ps[i]| - 1] else ps[i]);
    assert unpieced == objs;
  }

  /** `loads` of every dumped record gives back the records. */
  lemma LoadAllInverse(dumps: Stimulus -> string, loads: string -> Option<Stimulus>, data: seq<Stimulus>)
    requires forall d :: d in data ==> loads(dumps(d)) == Some(d)
    ensures LoadAll(loads, Dumped(dumps, data)) == Some(data)
  {
    var objs := Dumped(dumps, data);
    assert forall i :: 0 <= i < |objs| ==> loads(objs[i]) == Some(data[i]);
    var loaded := seq(|objs|, i requires 0 <= i < |objs| => loads(objs[i]).value);
    assert loaded == data;
  }

  /**
   * The written file holds the records, their number and their order: reading it back gives
   * exactly the data written, provided `dumps` writes no newline and `loads` undoes `dumps` on
   * the records written.
   */
  lemma WriteReadRoundTrip(dumps: Stimulus -> string, loads: string -> Option<Stimulus>, data: seq<Stimulus>)
    requires forall d :: d in data ==> '\n' !in dumps(d)
    requires forall d :: d in data ==> loads(dumps(d)) == Some(d)
    ensures ReadRecords(loads, Layout(Dumped(dumps, data))) == Some(data)
  {
    var objs := Dumped(dumps, data);
    LayoutFrame(objs);
    SplitEntries(objs, 0);
    var lines := SplitLines(EntriesFrom(objs, 0));
    assert lines[..|lines| - 1] == Pieces(objs);
    UnpieceInverse(objs);
    LoadAllInverse(dumps, loads, data);
  }
}
