/**
 * readDockerOutput and the digest readers of internal/build/image_builder.go:
 * the loop over the frames of a Docker API response, specified by ReadSpec,
 * and the validators that turn the last result frame into a digest.
 */
module DockerOutput {
  import opened Results
  import opened Docker

  // ---------------------------------------------------------------------------
  // One frame

  /** `strings.TrimSuffix(s, "\n")`. */
  function TrimNewline(s: string): string {
    if |s| > 0 && s[|s| - 1] == '\n' then s[..|s| - 1] else s
  }

  /** The line printed for a frame's stream: none for "" and "\n", else the stream less one trailing newline. */
  function PrintedLine(stream: string): (line: Option<string>)
    ensures line.Some? <==> |stream| > 0 && stream != "\n"
    ensures line.Some? ==> |line.value| > 0
    ensures line.Some? && stream[|stream| - 1] == '\n' ==> line.value + "\n" == stream
    ensures line.Some? && stream[|stream| - 1] != '\n' ==> line.value == stream
  {
    if |stream| > 0 && stream != "\n" then
      assert stream[|stream| - 1] == '\n' ==> stream[..|stream| - 1] + "\n" == stream;
      Some(TrimNewline(stream))
    else None
  }

  function LineOf(f: Frame): seq<string> {
    match PrintedLine(f.stream)
    case Some(line) => [line]
    case None => []
  }

  /** messageIsFromBuildkit. */
  predicate IsFromBuildkit(f: Frame) {
    f.id == BuildkitTraceID
  }

  /** What a decoded frame does once its line is printed. */
  datatype Step = Stop(err: BuildError) | Trace(status: SolveStatus) | Keep(aux: Option<Aux>)

  /**
   * The checks of the loop body in their order: ErrorMessage, then Error,
   * then the buildkit trace payload (a nil one is dereferenced), then Aux.
   */
  function FrameStep(f: Frame, decodeTrace: Aux -> Result<SolveStatus, string>): (s: Step)
    ensures f.errorMessage != "" ==> s == Stop(Error(f.errorMessage))
    ensures f.errorMessage == "" && f.error.Some? ==> s == Stop(Error(f.error.value))
    ensures s.Keep? <==> f.errorMessage == "" && f.error.None? && !IsFromBuildkit(f)
    ensures s.Keep? ==> s.aux == f.aux
    ensures s.Trace? ==> IsFromBuildkit(f) && f.aux.Some? && decodeTrace(f.aux.value) == Ok(s.status)
  {
    if f.errorMessage != "" then Stop(Error(f.errorMessage))
    else if f.error.Some? then Stop(Error(f.error.value))
    else if IsFromBuildkit(f) then
      if f.aux.None? then Stop(Panic("nil pointer dereference"))
      else
        match decodeTrace(f.aux.value)
        case Fail(e) => Stop(Error(e))
        case Ok(s) => Trace(s)
    else Keep(f.aux)
  }

  // ---------------------------------------------------------------------------
  // The whole response

  /** The result, the printed lines and the progress updates shown. */
  datatype Decoding = Decoding(result: Result<Option<Aux>, BuildError>, printed: seq<string>, traces: seq<SolveStatus>)

  /** Lines and updates emitted before `d`. */
  function Emit(printed: seq<string>, traces: seq<SolveStatus>, d: Decoding): Decoding {
    Decoding(d.result, printed + d.printed, traces + d.traces)
  }

  lemma EmitTwice(p1: seq<string>, t1: seq<SolveStatus>, p2: seq<string>, t2: seq<SolveStatus>, d: Decoding)
    ensures Emit(p1, t1, Emit(p2, t2, d)) == Emit(p1 + p2, t1 + t2, d)
  {
    assert p1 + (p2 + d.printed) == (p1 + p2) + d.printed;
    assert t1 + (t2 + d.traces) == (t1 + t2) + d.traces;
  }

  /** readDockerOutput over `raws`, with `last` the result recorded so far. */
  function ReadSpec(raws: seq<RawFrame>, decodeTrace: Aux -> Result<SolveStatus, string>, last: Option<Aux>): (d: Decoding)
    ensures d.result.Ok? ==> d.result.value == (if LastAux(raws).Some? then LastAux(raws) else last)
    ensures |d.printed| <= |raws| && |d.traces| <= |raws|
    decreases |raws|
  {
    if raws == [] then Decoding(Ok(last), [], [])
    else
      match raws[0]
      case Undecodable(reason) => Decoding(Fail(Error("decoding docker output: " + reason)), [], [])
      case Decoded(f) =>
        match FrameStep(f, decodeTrace)
        case Stop(err) => Decoding(Fail(err), LineOf(f), [])
        case Trace(s) => Emit(LineOf(f), [s], ReadSpec(raws[1..], decodeTrace, last))
        case Keep(aux) => Emit(LineOf(f), [], ReadSpec(raws[1..], decodeTrace, if aux.Some? then aux else last))
  }

  // ---------------------------------------------------------------------------
  // Reference definitions

  /** The frames that end decoding: undecodable ones and those whose checks stop the loop. */
  predicate Stops(raw: RawFrame, decodeTrace: Aux -> Result<SolveStatus, string>) {
    raw.Undecodable? || FrameStep(raw.frame, decodeTrace).Stop?
  }

  function StopError(raw: RawFrame, decodeTrace: Aux -> Result<SolveStatus, string>): BuildError
    requires Stops(raw, decodeTrace)
  {
    if raw.Undecodable? then Error("decoding docker output: " + raw.reason) else FrameStep(raw.frame, decodeTrace).err
  }

  /** The line a frame prints, if it decodes. */
  function LinesOf(raw: RawFrame): seq<string> {
    if raw.Decoded? then LineOf(raw.frame) else []
  }

  /** The progress update a frame shows, if it is a trace frame. */
  function TraceOf(raw: RawFrame, decodeTrace: Aux -> Result<SolveStatus, string>): seq<SolveStatus> {
    if raw.Decoded? && FrameStep(raw.frame, decodeTrace).Trace? then [FrameStep(raw.frame, decodeTrace).status] else []
  }

  /** The result candidate of a frame: its aux, unless it is a buildkit trace frame. */
  function AuxOf(raw: RawFrame): Option<Aux> {
    if raw.Decoded? && !IsFromBuildkit(raw.frame) then raw.frame.aux else None
  }

  /** The candidate of the last frame that has one: a later frame overrides every earlier one. */
  function LastAux(raws: seq<RawFrame>): Option<Aux> {
    if raws == [] then None
    else
      match LastAux(raws[1..])
      case Some(a) => Some(a)
      case None => AuxOf(raws[0])
  }

  /** A buildkit trace frame never takes part in the result: dropping it leaves the last candidate as it was. */
  lemma {:induction false} TraceFrameIgnored(raws: seq<RawFrame>, k: nat)
    requires k < |raws| && raws[k].Decoded? && IsFromBuildkit(raws[k].frame)
    ensures LastAux(raws) == LastAux(raws[..k] + raws[k + 1..])
  {
    if k == 0 {
      assert raws[..0] + raws[1..] == raws[1..];
    } else {
      TraceFrameIgnored(raws[1..], k - 1);
      var dropped := raws[..k] + raws[k + 1..];
      assert dropped[0] == raws[0];
      assert dropped[1..] == raws[1..][..k - 1] + raws[1..][k..];
    }
  }

  /** Every line printed, frame by frame. */
  function Lines(raws: seq<RawFrame>): seq<string> {
    if raws == [] then [] else LinesOf(raws[0]) + Lines(raws[1..])
  }

  /** Every progress update shown, frame by frame. */
  function Traces(raws: seq<RawFrame>, decodeTrace: Aux -> Result<SolveStatus, string>): seq<SolveStatus> {
    if raws == [] then [] else TraceOf(raws[0], decodeTrace) + Traces(raws[1..], decodeTrace)
  }

  /** The result recorded after a frame that does not stop decoding. */
  function NextLast(raw: RawFrame, last: Option<Aux>): Option<Aux> {
    if AuxOf(raw).Some? then AuxOf(raw) else last
  }

  /** ReadSpec from frame `i` on, one frame unfolded. */
  lemma ReadSpecStep(raws: seq<RawFrame>, decodeTrace: Aux -> Result<SolveStatus, string>, last: Option<Aux>, i: nat)
    requires i < |raws|
    ensures Stops(raws[i], decodeTrace) ==>
      ReadSpec(raws[i..], decodeTrace, last) == Decoding(Fail(StopError(raws[i], decodeTrace)), LinesOf(raws[i]), [])
    ensures !Stops(raws[i], decodeTrace) ==>
      ReadSpec(raws[i..], decodeTrace, last) ==
        Emit(LinesOf(raws[i]), TraceOf(raws[i], decodeTrace), ReadSpec(raws[i + 1..], decodeTrace, NextLast(raws[i], last)))
  {
    assert raws[i..][0] == raws[i];
    assert raws[i..][1..] == raws[i + 1..];
  }

  /** LastAux is the candidate of some frame, and no later frame has one. */
  lemma {:induction false} LastAuxIsLast(raws: seq<RawFrame>) returns (k: nat)
    ensures LastAux(raws).None? ==> forall j :: 0 <= j < |raws| ==> AuxOf(raws[j]).None?
    ensures LastAux(raws).Some? ==>
      && k < |raws| && AuxOf(raws[k]) == LastAux(raws)
      && forall j :: k < j < |raws| ==> AuxOf(raws[j]).None?
  {
    if raws == [] {
      return 0;
    }
    var k' := LastAuxIsLast(raws[1..]);
    assert forall j :: 1 <= j < |raws| ==> raws[j] == raws[1..][j - 1];
    if LastAux(raws[1..]).Some? {
      k := k' + 1;
    } else {
      k := 0;
    }
  }

  /** Without a stopping frame: the last candidate (or `last`), every line and every update. */
  lemma {:induction false} ReadSpecRuns(raws: seq<RawFrame>, decodeTrace: Aux -> Result<SolveStatus, string>, last: Option<Aux>)
    requires forall k :: 0 <= k < |raws| ==> !Stops(raws[k], decodeTrace)
    ensures ReadSpec(raws, decodeTrace, last) ==
      Decoding(Ok(if LastAux(raws).Some? then LastAux(raws) else last), Lines(raws), Traces(raws, decodeTrace))
  {
    if raws != [] {
      ReadSpecStep(raws, decodeTrace, last, 0);
      assert raws[0..] == raws;
      assert forall k :: 1 <= k < |raws| ==> raws[k] == raws[1..][k - 1];
      ReadSpecRuns(raws[1..], decodeTrace, NextLast(raws[0], last));
    }
  }

  /** Lines and Traces of a non-empty prefix, its first frame unfolded. */
  lemma PrefixCons(raws: seq<RawFrame>, n: nat)
    requires 0 < n <= |raws|
    ensures forall dt: Aux -> Result<SolveStatus, string> {:trigger Traces(raws[..n], dt)} ::
      Traces(raws[..n], dt) == TraceOf(raws[0], dt) + Traces(raws[1..][..n - 1], dt)
    ensures Lines(raws[..n]) == LinesOf(raws[0]) + Lines(raws[1..][..n - 1])
  {
    assert raws[..n][1..] == raws[1..][..n - 1];
  }

  /** At the first stopping frame: its error, the lines up to and including its own, the updates before it. */
  lemma {:induction false} ReadSpecStops(raws: seq<RawFrame>, decodeTrace: Aux -> Result<SolveStatus, string>, last: Option<Aux>, k: nat)
    requires k < |raws| && Stops(raws[k], decodeTrace)
    requires forall j :: 0 <= j < k ==> !Stops(raws[j], decodeTrace)
    ensures ReadSpec(raws, decodeTrace, last) ==
      Decoding(Fail(StopError(raws[k], decodeTrace)), Lines(raws[..k + 1]), Traces(raws[..k], decodeTrace))
  {
    ReadSpecStep(raws, decodeTrace, last, 0);
    assert raws[0..] == raws;
    PrefixCons(raws, k + 1);
    if k == 0 {
      assert raws[..0] == [];
    } else {
      PrefixCons(raws, k);
      assert !Stops(raws[0], decodeTrace);
      forall j | 0 <= j < k - 1
        ensures !Stops(raws[1..][j], decodeTrace)
      {
        assert raws[1..][j] == raws[j + 1];
      }
      assert raws[1..][k - 1] == raws[k];
      var rest := ReadSpec(raws[1..], decodeTrace, NextLast(raws[0], last));
      ReadSpecStops(raws[1..], decodeTrace, NextLast(raws[0], last), k - 1);
      assert ReadSpec(raws, decodeTrace, last) == Emit(LinesOf(raws[0]), TraceOf(raws[0], decodeTrace), rest);
    }
  }

  /**
   * A non-empty ErrorMessage ends decoding with that message, ahead of Error
   * and of any aux on the same or a later frame; the frame's own line is
   * printed first.
   */
  lemma ErrorMessageEndsDecoding(raws: seq<RawFrame>, decodeTrace: Aux -> Result<SolveStatus, string>, k: nat)
    requires k < |raws| && raws[k].Decoded? && raws[k].frame.errorMessage != ""
    requires forall j :: 0 <= j < k ==> !Stops(raws[j], decodeTrace)
    ensures var d := ReadSpec(raws, decodeTrace, None);
      && d.result == Fail(Error(raws[k].frame.errorMessage))
      && d.printed == Lines(raws[..k]) + LineOf(raws[k].frame)
  {
    ReadSpecStops(raws, decodeTrace, None, k);
    LinesSnoc(raws, k);
  }

  /** An Error with an empty ErrorMessage ends decoding with Error's message. */
  lemma ErrorEndsDecoding(raws: seq<RawFrame>, decodeTrace: Aux -> Result<SolveStatus, string>, k: nat)
    requires k < |raws| && raws[k].Decoded? && raws[k].frame.errorMessage == "" && raws[k].frame.error.Some?
    requires forall j :: 0 <= j < k ==> !Stops(raws[j], decodeTrace)
    ensures ReadSpec(raws, decodeTrace, None).result == Fail(Error(raws[k].frame.error.value))
  {
    ReadSpecStops(raws, decodeTrace, None, k);
  }

  lemma {:induction false} LinesSnoc(raws: seq<RawFrame>, k: nat)
    requires k < |raws| && raws[k].Decoded?
    ensures Lines(raws[..k + 1]) == Lines(raws[..k]) + LineOf(raws[k].frame)
  {
    var line := LineOf(raws[k].frame);
    if k == 0 {
      assert raws[..1] == [raws[0]];
      assert Lines([raws[0]]) == LinesOf(raws[0]) + Lines([]);
      assert Lines(raws[..0]) == [];
    } else {
      var tail := raws[1..];
      LinesSnoc(tail, k - 1);
      assert raws[..k + 1][1..] == tail[..k];
      assert raws[..k][1..] == tail[..k - 1];
      assert Lines(raws[..k + 1]) == LinesOf(raws[0]) + Lines(tail[..k]);
      assert Lines(raws[..k]) == LinesOf(raws[0]) + Lines(tail[..k - 1]);
      assert Lines(tail[..k]) == Lines(tail[..k - 1]) + line;
      assert LinesOf(raws[0]) + (Lines(tail[..k - 1]) + line) == (LinesOf(raws[0]) + Lines(tail[..k - 1])) + line;
    }
  }

  // ---------------------------------------------------------------------------
  // The loop

  /** readDockerOutput: the frames in order, printing each stream line before the frame's checks. */
  method ReadDockerOutput(raws: seq<RawFrame>, decodeTrace: Aux -> Result<SolveStatus, string>)
    returns (r: Result<Option<Aux>, BuildError>, printed: seq<string>, traces: seq<SolveStatus>)
    ensures Decoding(r, printed, traces) == ReadSpec(raws, decodeTrace, None)
  {
    var result: Option<Aux> := None;
    printed, traces := [], [];
    assert Emit([], [], ReadSpec(raws, decodeTrace, None)) == ReadSpec(raws, decodeTrace, None) by {
      assert [] + ReadSpec(raws, decodeTrace, None).printed == ReadSpec(raws, decodeTrace, None).printed;
      assert [] + ReadSpec(raws, decodeTrace, None).traces == ReadSpec(raws, decodeTrace, None).traces;
    }
    for i := 0 to |raws|
      invariant Emit(printed, traces, ReadSpec(raws[i..], decodeTrace, result)) == ReadSpec(raws, decodeTrace, None)
    {
      ReadSpecStep(raws, decodeTrace, result, i);
      assert printed + [] == printed && traces + [] == traces;
      if raws[i].Undecodable? {
        return Fail(Error("decoding docker output: " + raws[i].reason)), printed, traces;
      }
      ghost var printed0, traces0, result0 := printed, traces, result;
      var message := raws[i].frame;
      var line := PrintedLine(message.stream);
      if line.Some? {
        printed := printed + [line.value];
      }
      if message.errorMessage != "" {
        return Fail(Error(message.errorMessage)), printed, traces;
      }
      if message.error.Some? {
        return Fail(Error(message.error.value)), printed, traces;
      }
      if IsFromBuildkit(message) {
        if message.aux.None? {
          return Fail(Panic("nil pointer dereference")), printed, traces;
        }
        var status := decodeTrace(message.aux.value);
        if status.Fail? {
          return Fail(Error(status.error)), printed, traces;
        }
        traces := traces + [status.value];
      }
      if message.aux.Some? && !IsFromBuildkit(message) {
        result := message.aux;
      }
      assert printed == printed0 + LinesOf(raws[i]);
      assert traces == traces0 + TraceOf(raws[i], decodeTrace);
      assert result == NextLast(raws[i], result0);
      EmitTwice(printed0, traces0, LinesOf(raws[i]), TraceOf(raws[i], decodeTrace), ReadSpec(raws[i + 1..], decodeTrace, result));
    }
    assert raws[|raws|..] == [];
    assert printed + [] == printed && traces + [] == traces;
    r := Ok(result);
  }

  // ---------------------------------------------------------------------------
  // Digests from the result frame

  /** The value of the last member named `key`: a repeated key overrides the earlier ones. */
  function Lookup(members: seq<Member>, key: string): Option<Json> {
    if members == [] then None
    else
      match Lookup(members[1..], key)
      case Some(v) => Some(v)
      case None => if members[0].key == key then Some(members[0].value) else None
  }

  function UnmarshalTypeError(j: Json, goType: string): string {
    "json: cannot unmarshal " + KindName(j) + " into Go value of type " + goType
  }

  /** Decoding the members of an object into a `map[string]string`; the first non-string value is the error. */
  function StringMembers(members: seq<Member>, acc: map<string, string>): Result<map<string, string>, string>
    decreases |members|
  {
    if members == [] then Ok(acc)
    else if !StringLike(members[0].value) then Fail(UnmarshalTypeError(members[0].value, "string"))
    else StringMembers(members[1..], acc[members[0].key := StringOf(members[0].value)])
  }

  /** `json.Unmarshal` into a `map[string]string`; null leaves the map empty. */
  function StringMapOf(j: Json): Result<map<string, string>, string> {
    match j
    case JNull => Ok(map[])
    case JObject(members) => StringMembers(members, map[])
    case _ => Fail(UnmarshalTypeError(j, "map[string]string"))
  }

  /**
   * Decoding into a `map[string]string` succeeds exactly for null and for an
   * object whose values are all strings or null; a key is present exactly
   * when the object has it, with the value of its last member.
   */
  lemma StringMapOfOk(j: Json, key: string)
    ensures StringMapOf(j).Ok? <==>
      j.JNull? || (j.JObject? && forall i :: 0 <= i < |j.members| ==> StringLike(j.members[i].value))
    ensures StringMapOf(j).Ok? ==> (key in StringMapOf(j).value <==> j.JObject? && Lookup(j.members, key).Some?)
    ensures StringMapOf(j).Ok? && j.JObject? && Lookup(j.members, key).Some? ==>
      StringMapOf(j).value[key] == StringOf(Lookup(j.members, key).value)
  {
    if j.JObject? {
      StringMembersOk(j.members, map[], key);
    }
  }

  /** getDigestFromAux: the `ID` entry of the aux decoded as a map of strings. */
  function DigestFromAux(aux: Aux): (r: Result<string, BuildError>)
    ensures r.Fail? ==> r.error.Error? && 18 <= |r.error.msg| && r.error.msg[..18] == "getDigestFromAux: "
  {
    match StringMapOf(aux.value)
    case Fail(e) => Fail(Error("getDigestFromAux: " + e))
    case Ok(m) => if "ID" in m then Ok(m["ID"]) else Fail(Error("getDigestFromAux: ID not found"))
  }

  lemma {:induction false} StringMembersOk(members: seq<Member>, acc: map<string, string>, key: string)
    ensures StringMembers(members, acc).Ok? <==> forall i :: 0 <= i < |members| ==> StringLike(members[i].value)
    ensures StringMembers(members, acc).Ok? ==>
      var m := StringMembers(members, acc).value;
      && (key in m <==> Lookup(members, key).Some? || key in acc)
      && (Lookup(members, key).Some? ==> m[key] == StringOf(Lookup(members, key).value))
      && (Lookup(members, key).None? && key in acc ==> m[key] == acc[key])
    decreases |members|
  {
    if members != [] {
      assert forall i :: 1 <= i < |members| ==> members[i] == members[1..][i - 1];
      if StringLike(members[0].value) {
        StringMembersOk(members[1..], acc[members[0].key := StringOf(members[0].value)], key);
      }
    }
  }

  /**
   * getDigestFromAux succeeds exactly when the aux is an object whose values
   * are all strings (or null) and that has an `ID` member; the digest is the
   * last `ID` value.
   */
  lemma DigestFromAuxOk(aux: Aux)
    ensures DigestFromAux(aux).Ok? <==>
      && aux.value.JObject?
      && (forall i :: 0 <= i < |aux.value.members| ==> StringLike(aux.value.members[i].value))
      && Lookup(aux.value.members, "ID").Some?
    ensures DigestFromAux(aux).Ok? ==> DigestFromAux(aux).value == StringOf(Lookup(aux.value.members, "ID").value)
  {
    if aux.value.JObject? {
      StringMembersOk(aux.value.members, map[], "ID");
    }
  }

  /** getDigestFromBuildOutput. */
  function GetDigestFromBuildOutput(raws: seq<RawFrame>, decodeTrace: Aux -> Result<SolveStatus, string>): (r: Result<string, BuildError>)
    ensures ReadSpec(raws, decodeTrace, None).result.Fail? ==> r == Fail(ReadSpec(raws, decodeTrace, None).result.error)
    ensures r.Ok? ==> LastAux(raws).Some? && r == DigestFromAux(LastAux(raws).value)
  {
    match ReadSpec(raws, decodeTrace, None).result
    case Fail(e) => Fail(e)
    case Ok(None) => Fail(Error("getDigestFromBuildOutput: No results found in docker output"))
    case Ok(Some(aux)) => DigestFromAux(aux)
  }

  /** Without a stopping frame, the build digest comes from the last candidate, and there must be one. */
  lemma BuildDigestFromLastAux(raws: seq<RawFrame>, decodeTrace: Aux -> Result<SolveStatus, string>)
    requires forall k :: 0 <= k < |raws| ==> !Stops(raws[k], decodeTrace)
    ensures LastAux(raws).None? ==>
      GetDigestFromBuildOutput(raws, decodeTrace) == Fail(Error("getDigestFromBuildOutput: No results found in docker output"))
    ensures LastAux(raws).Some? ==> GetDigestFromBuildOutput(raws, decodeTrace) == DigestFromAux(LastAux(raws).value)
  {
    ReadSpecRuns(raws, decodeTrace, None);
  }

  /** The fields of `pushOutput`. */
  datatype PushOutput = PushOutput(tag: string, digest: string, size: int)

  function Lower(c: char): char {
    if 'A' <= c <= 'Z' then (c as int + 32) as char else c
  }

  /** encoding/json matches a member to a struct field by name, ignoring case. */
  predicate KeyMatches(key: string, field: string) {
    |key| == |field| && forall i :: 0 <= i < |key| ==> Lower(key[i]) == Lower(field[i])
  }

  function FieldTypeError(j: Json, field: string, goType: string): string {
    "json: cannot unmarshal " + KindName(j) + " into Go struct field pushOutput." + field + " of type " + goType
  }

  /** Decoding the members of an object into `pushOutput`; null leaves a field as it is, unknown members are ignored. */
  function PushMembers(members: seq<Member>, acc: PushOutput): Result<PushOutput, string>
    decreases |members|
  {
    if members == [] then Ok(acc)
    else
      var m := members[0];
      if KeyMatches(m.key, "Tag") then
        if m.value.JString? then PushMembers(members[1..], acc.(tag := m.value.s))
        else if m.value.JNull? then PushMembers(members[1..], acc)
        else Fail(FieldTypeError(m.value, "Tag", "string"))
      else if KeyMatches(m.key, "Digest") then
        if m.value.JString? then PushMembers(members[1..], acc.(digest := m.value.s))
        else if m.value.JNull? then PushMembers(members[1..], acc)
        else Fail(FieldTypeError(m.value, "Digest", "string"))
      else if KeyMatches(m.key, "Size") then
        if m.value.JNumber? then PushMembers(members[1..], acc.(size := m.value.n))
        else if m.value.JNull? then PushMembers(members[1..], acc)
        else Fail(FieldTypeError(m.value, "Size", "int"))
      else PushMembers(members[1..], acc)
  }

  /** `json.Unmarshal` into a `pushOutput`. */
  function PushOutputOf(j: Json): Result<PushOutput, string> {
    match j
    case JNull => Ok(PushOutput("", "", 0))
    case JObject(members) => PushMembers(members, PushOutput("", "", 0))
    case _ => Fail(UnmarshalTypeError(j, "build.pushOutput"))
  }

  /** getDigestFromPushOutput: the non-empty Digest of the last result frame. */
  function GetDigestFromPushOutput(raws: seq<RawFrame>, decodeTrace: Aux -> Result<SolveStatus, string>): (r: Result<string, BuildError>)
    ensures r.Ok? ==> r.value != ""
    ensures ReadSpec(raws, decodeTrace, None).result.Fail? ==> r == Fail(ReadSpec(raws, decodeTrace, None).result.error)
    ensures ReadSpec(raws, decodeTrace, None).result == Ok(None) ==> r == Fail(Error("No digest found in push output"))
    ensures r.Ok? ==> && LastAux(raws).Some? && PushOutputOf(LastAux(raws).value.value).Ok?
                      && r.value == PushOutputOf(LastAux(raws).value.value).value.digest
  {
    match ReadSpec(raws, decodeTrace, None).result
    case Fail(e) => Fail(e)
    case Ok(None) => Fail(Error("No digest found in push output"))
    case Ok(Some(aux)) =>
      match PushOutputOf(aux.value)
      case Fail(e) => Fail(Error("getDigestFromPushOutput#Unmarshal: " + e + ", json string: " + aux.text))
      case Ok(d) =>
        if d.digest == "" then Fail(Error("getDigestFromPushOutput: Digest not found in " + aux.text))
        else Ok(d.digest)
  }

  /** Without a stopping frame, the push digest is the non-empty Digest of the last candidate. */
  lemma PushDigestFromLastAux(raws: seq<RawFrame>, decodeTrace: Aux -> Result<SolveStatus, string>)
    requires forall k :: 0 <= k < |raws| ==> !Stops(raws[k], decodeTrace)
    ensures LastAux(raws).None? ==> GetDigestFromPushOutput(raws, decodeTrace) == Fail(Error("No digest found in push output"))
    ensures GetDigestFromPushOutput(raws, decodeTrace).Ok? <==>
      && LastAux(raws).Some?
      && PushOutputOf(LastAux(raws).value.value).Ok?
      && PushOutputOf(LastAux(raws).value.value).value.digest != ""
    ensures GetDigestFromPushOutput(raws, decodeTrace).Ok? ==>
      GetDigestFromPushOutput(raws, decodeTrace).value == PushOutputOf(LastAux(raws).value.value).value.digest
  {
    ReadSpecRuns(raws, decodeTrace, None);
  }

  /** A member naming a field of `pushOutput` holds a value of the field's kind, or null. */
  predicate FieldKindOk(m: Member) {
    && (KeyMatches(m.key, "Tag") ==> m.value.JString? || m.value.JNull?)
    && (KeyMatches(m.key, "Digest") ==> m.value.JString? || m.value.JNull?)
    && (KeyMatches(m.key, "Size") ==> m.value.JNumber? || m.value.JNull?)
  }

  /** The string of the last member, matching `field`, that is not null. */
  function LastString(members: seq<Member>, field: string): Option<string> {
    if members == [] then None
    else
      match LastString(members[1..], field)
      case Some(s) => Some(s)
      case None => if KeyMatches(members[0].key, field) && members[0].value.JString? then Some(members[0].value.s) else None
  }

  /**
   * Decoding into `pushOutput` succeeds exactly when every member naming a
   * field has that field's kind; Tag and Digest are then the last non-null
   * value given for them, or what they were.
   */
  lemma {:induction false} PushMembersOk(members: seq<Member>, acc: PushOutput)
    ensures PushMembers(members, acc).Ok? <==> forall i :: 0 <= i < |members| ==> FieldKindOk(members[i])
    ensures PushMembers(members, acc).Ok? ==>
      PushMembers(members, acc).value.digest == (if LastString(members, "Digest").Some? then LastString(members, "Digest").value else acc.digest)
    ensures PushMembers(members, acc).Ok? ==>
      PushMembers(members, acc).value.tag == (if LastString(members, "Tag").Some? then LastString(members, "Tag").value else acc.tag)
    decreases |members|
  {
    if members != [] {
      assert forall i :: 1 <= i < |members| ==> members[i] == members[1..][i - 1];
      var m := members[0];
      var next :=
        if KeyMatches(m.key, "Tag") && m.value.JString? then acc.(tag := m.value.s)
        else if KeyMatches(m.key, "Digest") && m.value.JString? then acc.(digest := m.value.s)
        else if KeyMatches(m.key, "Size") && m.value.JNumber? then acc.(size := m.value.n)
        else acc;
      PushMembersOk(members[1..], next);
    }
  }

  /** `json.Unmarshal` into `pushOutput`: null gives the zero value; an object is decoded member by member. */
  lemma PushOutputOfOk(j: Json)
    ensures j.JNull? ==> PushOutputOf(j) == Ok(PushOutput("", "", 0))
    ensures PushOutputOf(j).Ok? <==>
      j.JNull? || (j.JObject? && forall i :: 0 <= i < |j.members| ==> FieldKindOk(j.members[i]))
    ensures PushOutputOf(j).Ok? && j.JObject? ==>
      PushOutputOf(j).value.digest == (if LastString(j.members, "Digest").Some? then LastString(j.members, "Digest").value else "")
  {
    if j.JObject? {
      PushMembersOk(j.members, PushOutput("", "", 0));
    }
  }

  /** A push output without a Digest member (or with only null ones) is refused. */
  lemma {:induction false} PushMembersKeepDigest(members: seq<Member>, acc: PushOutput)
    requires forall i :: 0 <= i < |members| ==> !KeyMatches(members[i].key, "Digest") || members[i].value.JNull?
    ensures PushMembers(members, acc).Ok? ==> PushMembers(members, acc).value.digest == acc.digest
    decreases |members|
  {
    if members != [] {
      assert forall i :: 1 <= i < |members| ==> members[i] == members[1..][i - 1];
      var m := members[0];
      var next :=
        if KeyMatches(m.key, "Tag") && m.value.JString? then acc.(tag := m.value.s)
        else if KeyMatches(m.key, "Size") && m.value.JNumber? && !KeyMatches(m.key, "Tag") then acc.(size := m.value.n)
        else acc;
      PushMembersKeepDigest(members[1..], next);
    }
  }

  lemma PushWithoutDigestFails(raws: seq<RawFrame>, decodeTrace: Aux -> Result<SolveStatus, string>)
    requires forall k :: 0 <= k < |raws| ==> !Stops(raws[k], decodeTrace)
    requires LastAux(raws).Some? && LastAux(raws).value.value.JObject?
    requires var ms := LastAux(raws).value.value.members;
      forall i :: 0 <= i < |ms| ==> !KeyMatches(ms[i].key, "Digest") || ms[i].value.JNull?
    ensures GetDigestFromPushOutput(raws, decodeTrace).Fail?
  {
    ReadSpecRuns(raws, decodeTrace, None);
    PushMembersKeepDigest(LastAux(raws).value.value.members, PushOutput("", "", 0));
  }
}
