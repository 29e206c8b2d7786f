/**
 * The values internal/build/image_builder.go works with: the decoded frames
 * of a Docker API response, JSON values, image references, Dockerfiles as
 * instruction sequences, and the outcomes of the Docker daemon calls.
 */
module Docker {
  import opened Results

  // ---------------------------------------------------------------------------
  // JSON

  /** A JSON value; object members keep their order and may repeat a key. */
  datatype Json =
    | JNull
    | JBool(b: bool)
    | JNumber(n: int)
    | JString(s: string)
    | JArray(items: seq<Json>)
    | JObject(members: seq<Member>)

  datatype Member = Member(key: string, value: Json)

  /** A raw JSON message (`json.RawMessage`): its text and the value it denotes. */
  datatype Aux = Aux(text: string, value: Json)

  /** The word encoding/json uses for the kind of a value in its type errors. */
  function KindName(j: Json): string {
    match j
    case JNull => "null"
    case JBool(_) => "bool"
    case JNumber(_) => "number"
    case JString(_) => "string"
    case JArray(_) => "array"
    case JObject(_) => "object"
  }

  /** A value that decodes into a Go string: a string, or null (which leaves "" in place). */
  predicate StringLike(j: Json) {
    j.JString? || j.JNull?
  }

  function StringOf(j: Json): string {
    if j.JString? then j.s else ""
  }

  // ---------------------------------------------------------------------------
  // Frames of a Docker API response (`jsonmessage.JSONMessage`)

  /** `ID` of the frames that carry buildkit progress rather than a result. */
  const BuildkitTraceID: string := "moby.buildkit.trace"

  /**
   * A decoded frame; `error` is the message of `Error` when that is non-nil.
   * `aux` is None when the member is absent or null (encoding/json leaves a
   * nil `*json.RawMessage` for null), so a Some never holds a JNull value in a
   * frame the decoder produces.
   */
  datatype Frame = Frame(stream: string, errorMessage: string, error: Option<string>, id: string, aux: Option<Aux>)

  /** One step of the JSON decoder: a frame, or the decoder's error. */
  datatype RawFrame = Decoded(frame: Frame) | Undecodable(reason: string)

  /** The progress update shown for a buildkit trace frame. */
  datatype SolveStatus = SolveStatus(vertexes: seq<string>, statuses: seq<string>, logs: seq<string>)

  // ---------------------------------------------------------------------------
  // Errors

  /** An `error` value returned to the caller, or a Go run-time panic. */
  datatype BuildError = Error(msg: string) | Panic(reason: string)

  /** `fmt.Errorf(prefix + "%v", err)`; a panic is not caught and stays a panic. */
  function Wrap(prefix: string, e: BuildError): (w: BuildError)
    ensures w.Error? <==> e.Error?
    ensures w.Error? ==> |w.msg| == |prefix| + |e.msg| && w.msg[..|prefix|] == prefix && w.msg[|prefix|..] == e.msg
  {
    match e
    case Error(m) => Error(prefix + m)
    case Panic(_) => e
  }

  // ---------------------------------------------------------------------------
  // Image references (`reference.Named`, `reference.NamedTagged`)

  datatype Named = Named(domain: string, path: string)

  datatype NamedTagged = NamedTagged(name: Named, tag: string)

  function NameString(n: Named): string {
    if n.domain == "" then n.path else n.domain + "/" + n.path
  }

  function TaggedString(t: NamedTagged): string {
    NameString(t.name) + ":" + t.tag
  }

  predicate WordChar(c: char) {
    ('a' <= c <= 'z') || ('A' <= c <= 'Z') || ('0' <= c <= '9') || c == '_'
  }

  /** The tag grammar of the reference library: a word character, then up to 127 word characters, dots or dashes. */
  predicate TagValid(tag: string) {
    && 1 <= |tag| <= 128
    && WordChar(tag[0])
    && forall i :: 1 <= i < |tag| ==> WordChar(tag[i]) || tag[i] == '.' || tag[i] == '-'
  }

  /** `reference.WithTag`. */
  function WithTag(n: Named, tag: string): (r: Result<NamedTagged, string>)
    ensures r.Ok? <==> TagValid(tag)
    ensures r.Ok? ==> r.value.name == n && r.value.tag == tag
  {
    if TagValid(tag) then Ok(NamedTagged(n, tag)) else Fail("invalid tag format")
  }

  // ---------------------------------------------------------------------------
  // Digests (`digest.Digest`, "algorithm:encoded")

  /** `strings.Index` for one character: its first position in `s`. */
  function IndexOf(s: string, c: char): (r: Option<nat>)
    ensures r.None? <==> c !in s
    ensures r.Some? ==> r.value < |s| && s[r.value] == c && c !in s[..r.value]
  {
    if s == [] then None
    else if s[0] == c then Some(0)
    else
      match IndexOf(s[1..], c)
      case None => None
      case Some(i) =>
        assert s[..i + 1] == [s[0]] + s[1..][..i];
        Some(i + 1)
  }

  /** `Digest.Encoded`: the part after the first ':'; go-digest panics when there is none. */
  function Encoded(d: string): (r: Result<string, BuildError>)
    ensures r.Fail? <==> ':' !in d
    ensures r.Fail? ==> r.error.Panic?
  {
    match IndexOf(d, ':')
    case None => Fail(Panic("no ':' separator in digest " + d))
    case Some(i) => Ok(d[i + 1..])
  }

  // ---------------------------------------------------------------------------
  // Dockerfiles and build inputs

  /** `model.Cmd`. */
  datatype Cmd = Cmd(argv: seq<string>) {
    predicate Empty() { |argv| == 0 }
  }

  /** A local path and where it goes in the container (`pathMapping`). */
  datatype PathMapping = PathMapping(localPath: string, containerPath: string)

  /** The instructions the build adds to a base Dockerfile; `Line` is any line of the base. */
  datatype Instr =
    | From(image: string)
    | AddAll
    | RmPaths(paths: seq<PathMapping>)
    | Run(cmd: Cmd)
    | Entrypoint(cmd: Cmd)
    | Line(text: string)

  type Dockerfile = seq<Instr>

  /** `DockerfileFromExisting`, whose body is not part of this model: a Dockerfile starting from the given image. */
  function DockerfileFromExisting(existing: NamedTagged): (df: Dockerfile)
    ensures |df| == 1 && df[0] == From(TaggedString(existing))
  {
    [From(TaggedString(existing))]
  }

  /** Why the setup before `ImagePush` failed. */
  datatype PushSetupFailure =
    | RepositoryInfo(msg: string)
    | InitializeCli(msg: string)
    | EncodeAuth(msg: string)

  /**
   * What the Docker daemon, the registry and the file system answer: each
   * foreign call of the builder is a total function of what it is given (the
   * push setup of the reference being pushed).
   */
  datatype DockerEnv = DockerEnv(
    missingLocalPaths: seq<PathMapping> -> Result<seq<PathMapping>, string>,
    archivePaths: seq<PathMapping> -> Option<string>,
    archiveDf: Dockerfile -> Option<string>,
    imageBuild: (Dockerfile, seq<PathMapping>) -> Result<seq<RawFrame>, string>,
    decodeTrace: Aux -> Result<SolveStatus, string>,
    imageTag: (string, string) -> Option<string>,
    pushSetup: NamedTagged -> Option<PushSetupFailure>,
    imagePush: string -> Result<seq<RawFrame>, string>)
}
