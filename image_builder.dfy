/**
 * The build and push operations of `dockerImageBuilder` in
 * internal/build/image_builder.go. The Docker daemon, the registry and the
 * file system are the functions of a DockerEnv; the decoding of their
 * responses is module DockerOutput.
 */
module ImageBuilder {
  import opened Results
  import opened Docker
  import opened DockerOutput
  import Assembly

  const TagPrefix: string := "tilt-"

  /** How many characters of the encoded digest go into a tag. */
  const DigestTagLength: nat := 16

  // ---------------------------------------------------------------------------
  // Tags

  /** digestAsTag: "tilt-" and the first 16 characters of the encoded digest. */
  function DigestAsTag(d: string): (r: Result<string, BuildError>)
    ensures r.Ok? ==> |r.value| == |TagPrefix| + DigestTagLength && r.value[..|TagPrefix|] == TagPrefix
    ensures ':' !in d ==> r.Fail? && r.error.Panic?
  {
    match Encoded(d)
    case Fail(e) => Fail(e)
    case Ok(str) =>
      if |str| < DigestTagLength then Fail(Error("Digest too short: " + str))
      else Ok(TagPrefix + str[..DigestTagLength])
  }

  /**
   * A digest gives a tag exactly when it has a ':' followed by at least 16
   * characters; the tag is made of the 16 characters after the first ':'.
   */
  lemma DigestAsTagShape(d: string) returns (i: nat)
    requires ':' in d
    ensures i < |d| && d[i] == ':' && ':' !in d[..i]
    ensures DigestAsTag(d).Ok? <==> i + 1 + DigestTagLength <= |d|
    ensures DigestAsTag(d).Ok? ==> DigestAsTag(d).value == TagPrefix + d[i + 1..i + 1 + DigestTagLength]
    ensures DigestAsTag(d).Fail? ==> DigestAsTag(d) == Fail(Error("Digest too short: " + d[i + 1..]))
  {
    i := IndexOf(d, ':').value;
    if i + 1 + DigestTagLength <= |d| {
      assert d[i + 1..][..DigestTagLength] == d[i + 1..i + 1 + DigestTagLength];
    }
  }

  predicate HexDigit(c: char) {
    ('0' <= c <= '9') || ('a' <= c <= 'f')
  }

  /** A digest whose encoded part starts with 16 hex digits gives a tag the reference grammar accepts. */
  lemma HexDigestTagValid(d: string)
    requires DigestAsTag(d).Ok?
    requires forall k :: 0 <= k < DigestTagLength ==> HexDigit(Encoded(d).value[k])
    ensures TagValid(DigestAsTag(d).value)
  {
    var tag := DigestAsTag(d).value;
    var str := Encoded(d).value;
    assert tag == TagPrefix + str[..DigestTagLength];
    assert forall k :: 0 <= k < |TagPrefix| ==> tag[k] == TagPrefix[k];
    assert forall k :: |TagPrefix| <= k < |tag| ==> tag[k] == str[k - |TagPrefix|];
  }

  /** TagImage: tag the digest with the name and the digest's tag. */
  function TagImage(ref: Named, dig: string, env: DockerEnv): (r: Result<NamedTagged, BuildError>)
    ensures r.Ok? ==> r.value.name == ref && TagValid(r.value.tag) && |r.value.tag| == |TagPrefix| + DigestTagLength && r.value.tag[..|TagPrefix|] == TagPrefix
  {
    match DigestAsTag(dig)
    case Fail(e) => Fail(Wrap("TagImage: ", e))
    case Ok(tag) =>
      match WithTag(ref, tag)
      case Fail(e) => Fail(Error("TagImage: " + e))
      case Ok(nt) =>
        match env.imageTag(dig, TaggedString(nt))
        case Some(e) => Fail(Error("TagImage#ImageTag: " + e))
        case None => Ok(nt)
  }

  /** The daemon is asked to tag exactly when the digest gives a valid tag; its answer decides the rest. */
  lemma TagImageOk(ref: Named, dig: string, env: DockerEnv)
    ensures TagImage(ref, dig, env).Ok? <==>
      && DigestAsTag(dig).Ok? && TagValid(DigestAsTag(dig).value)
      && env.imageTag(dig, TaggedString(NamedTagged(ref, DigestAsTag(dig).value))).None?
    ensures TagImage(ref, dig, env).Ok? ==> TagImage(ref, dig, env) == Ok(NamedTagged(ref, DigestAsTag(dig).value))
  {
  }

  // ---------------------------------------------------------------------------
  // Pushing

  /** The result of PushImage, and whether `ImagePush` was called. */
  datatype PushOutcome = PushOutcome(result: Result<NamedTagged, BuildError>, pushed: bool)

  /**
   * PushImage: the client setup, the domain check, `ImagePush`, then the
   * digest of the push output; the reference itself is the result.
   */
  function PushImage(ref: NamedTagged, env: DockerEnv): (o: PushOutcome)
    ensures o.result.Ok? ==> o.result.value == ref && o.pushed
    ensures ref.name.domain == "" ==> !o.pushed && o.result.Fail?
  {
    match env.pushSetup(ref)
    case Some(RepositoryInfo(e)) => PushOutcome(Fail(Error("PushImage#ParseRepositoryInfo: " + e)), false)
    case Some(InitializeCli(e)) => PushOutcome(Fail(Error("PushImage#InitializeCLI: " + e)), false)
    case Some(EncodeAuth(e)) => PushOutcome(Fail(Error("PushImage#EncodeAuthToBase64: " + e)), false)
    case None =>
      if ref.name.domain == "" then
        PushOutcome(Fail(Error("PushImage: no domain in container name: " + TaggedString(ref))), false)
      else
        match env.imagePush(TaggedString(ref))
        case Fail(e) => PushOutcome(Fail(Error("PushImage#ImagePush: " + e)), true)
        case Ok(raws) =>
          match GetDigestFromPushOutput(raws, env.decodeTrace)
          case Fail(e) => PushOutcome(Fail(Wrap("PushImage#getDigestFromPushOutput: ", e)), true)
          case Ok(_) => PushOutcome(Ok(ref), true)
  }

  /**
   * A push succeeds exactly when the setup succeeds, the name has a domain,
   * the registry accepts the push and its output carries a non-empty digest.
   */
  lemma PushImageOk(ref: NamedTagged, env: DockerEnv)
    ensures PushImage(ref, env).result.Ok? <==>
      && env.pushSetup(ref).None?
      && ref.name.domain != ""
      && env.imagePush(TaggedString(ref)).Ok?
      && GetDigestFromPushOutput(env.imagePush(TaggedString(ref)).value, env.decodeTrace).Ok?
  {
  }

  /** The setup errors come before the domain check, and the domain check before any push. */
  lemma PushImageOrder(ref: NamedTagged, env: DockerEnv)
    ensures env.pushSetup(ref).Some? ==> !PushImage(ref, env).pushed
    ensures env.pushSetup(ref).None? && ref.name.domain == "" ==>
      PushImage(ref, env).result == Fail(Error("PushImage: no domain in container name: " + TaggedString(ref)))
    ensures env.pushSetup(ref).None? && ref.name.domain != "" ==> PushImage(ref, env).pushed
  {
  }

  // ---------------------------------------------------------------------------
  // Building

  /** tarContextAndUpdateDf: the paths are archived before the Dockerfile, so their error wins. */
  function TarContext(df: Dockerfile, paths: seq<PathMapping>, env: DockerEnv): (err: Option<string>)
    ensures env.archivePaths(paths).Some? ==> err == Some("archivePaths: " + env.archivePaths(paths).value)
    ensures env.archivePaths(paths).None? ==>
      (err.Some? <==> env.archiveDf(df).Some?) && (err.Some? ==> err.value == "archiveDf: " + env.archiveDf(df).value)
  {
    match env.archivePaths(paths)
    case Some(e) => Some("archivePaths: " + e)
    case None =>
      match env.archiveDf(df)
      case Some(e) => Some("archiveDf: " + e)
      case None => None
  }

  /**
   * buildFromDf: tar the context, build, read the output, take the digest
   * of its result and tag it. The result is dereferenced without a check,
   * so a build output with no result frame panics.
   */
  function BuildFromDf(df: Dockerfile, paths: seq<PathMapping>, ref: Named, env: DockerEnv): (r: Result<NamedTagged, BuildError>)
    ensures r.Ok? ==> r.value.name == ref && TagValid(r.value.tag) && |r.value.tag| == |TagPrefix| + DigestTagLength && r.value.tag[..|TagPrefix|] == TagPrefix
    ensures TarContext(df, paths, env).Some? ==> r == Fail(Error(TarContext(df, paths, env).value))
  {
    match TarContext(df, paths, env)
    case Some(e) => Fail(Error(e))
    case None =>
      match env.imageBuild(df, paths)
      case Fail(e) => Fail(Error(e))
      case Ok(raws) =>
        match ReadSpec(raws, env.decodeTrace, None).result
        case Fail(e) => Fail(Wrap("ImageBuild: ", e))
        case Ok(None) => Fail(Panic("nil pointer dereference"))
        case Ok(Some(aux)) =>
          match DigestFromAux(aux)
          case Fail(e) => Fail(Wrap("getDigestFromAux: ", e))
          case Ok(dig) =>
            match TagImage(ref, dig, env)
            case Fail(e) => Fail(Wrap("PushImage: ", e))
            case Ok(nt) => Ok(nt)
  }

  /**
   * A clean build output names its image by the `ID` of its last result
   * frame, and the image is tagged with that digest's tag.
   */
  lemma BuildFromDfDigest(df: Dockerfile, paths: seq<PathMapping>, ref: Named, env: DockerEnv, raws: seq<RawFrame>)
    requires TarContext(df, paths, env).None? && env.imageBuild(df, paths) == Ok(raws)
    requires forall k :: 0 <= k < |raws| ==> !Stops(raws[k], env.decodeTrace)
    requires LastAux(raws).Some? && DigestFromAux(LastAux(raws).value).Ok?
    ensures var dig := DigestFromAux(LastAux(raws).value).value;
      BuildFromDf(df, paths, ref, env) == (match TagImage(ref, dig, env) case Ok(nt) => Ok(nt) case Fail(e) => Fail(Wrap("PushImage: ", e)))
  {
    ReadSpecRuns(raws, env.decodeTrace, None);
  }

  /** A clean build output without a result frame is a nil dereference, not an error. */
  lemma BuildWithoutResultPanics(df: Dockerfile, paths: seq<PathMapping>, ref: Named, env: DockerEnv, raws: seq<RawFrame>)
    requires TarContext(df, paths, env).None? && env.imageBuild(df, paths) == Ok(raws)
    requires forall k :: 0 <= k < |raws| ==> !Stops(raws[k], env.decodeTrace)
    requires LastAux(raws).None?
    ensures BuildFromDf(df, paths, ref, env).Fail? && BuildFromDf(df, paths, ref, env).error.Panic?
  {
    ReadSpecRuns(raws, env.decodeTrace, None);
  }

  /** One `RUN` per step, in order. */
  function Runs(steps: seq<Cmd>): (df: Dockerfile)
    ensures |df| == |steps| && forall i :: 0 <= i < |steps| ==> df[i] == Run(steps[i])
  {
    seq(|steps|, i requires 0 <= i < |steps| => Run(steps[i]))
  }

  /**
   * The Dockerfile buildImage builds: the base, `ADD` of the whole context,
   * the removal of the missing paths, the steps, and an entrypoint when one
   * is given.
   */
  function DockerfileFor(base: Dockerfile, toRemove: seq<PathMapping>, steps: seq<Cmd>, entrypoint: Cmd): (df: Dockerfile)
    ensures |df| == |base| + 2 + |steps| + (if entrypoint.Empty() then 0 else 1)
    ensures df[..|base|] == base && df[|base|] == AddAll && df[|base| + 1] == RmPaths(toRemove)
    ensures forall i :: 0 <= i < |steps| ==> df[|base| + 2 + i] == Run(steps[i])
    ensures !entrypoint.Empty() ==> df[|df| - 1] == Entrypoint(entrypoint)
  {
    base + [AddAll, RmPaths(toRemove)] + Runs(steps) + (if entrypoint.Empty() then [] else [Entrypoint(entrypoint)])
  }

  /** buildImage, as a function of its inputs and the environment. */
  function BuildImageSpec(base: Dockerfile, paths: seq<PathMapping>, steps: seq<Cmd>, entrypoint: Cmd, ref: Named, env: DockerEnv): (r: Result<NamedTagged, BuildError>)
    ensures r.Ok? ==> r.value.name == ref && TagValid(r.value.tag)
    ensures env.missingLocalPaths(paths).Fail? ==> r == Fail(Error("buildImage: " + env.missingLocalPaths(paths).error))
  {
    match env.missingLocalPaths(paths)
    case Fail(e) => Fail(Error("buildImage: " + e))
    case Ok(toRemove) =>
      match BuildFromDf(DockerfileFor(base, toRemove, steps, entrypoint), paths, ref, env)
      case Fail(e) => Fail(Wrap("buildImage#buildFromDf: ", e))
      case Ok(nt) => Ok(nt)
  }

  /** buildImage: assemble the Dockerfile instruction by instruction, then build it. */
  method BuildImage(base: Dockerfile, paths: seq<PathMapping>, steps: seq<Cmd>, entrypoint: Cmd, ref: Named, env: DockerEnv)
    returns (r: Result<NamedTagged, BuildError>)
    ensures r == BuildImageSpec(base, paths, steps, entrypoint, ref, env)
  {
    var df := base + [AddAll];
    var toRemove := env.missingLocalPaths(paths);
    if toRemove.Fail? {
      return Fail(Error("buildImage: " + toRemove.error));
    }
    df := df + [RmPaths(toRemove.value)];
    for i := 0 to |steps|
      invariant df == base + [AddAll, RmPaths(toRemove.value)] + Runs(steps[..i])
    {
      assert Runs(steps[..i + 1]) == Runs(steps[..i]) + [Run(steps[i])];
      df := df + [Run(steps[i])];
    }
    assert steps[..|steps|] == steps;
    if !entrypoint.Empty() {
      df := df + [Entrypoint(entrypoint)];
    }
    assert df == DockerfileFor(base, toRemove.value, steps, entrypoint);
    var namedTagged := BuildFromDf(df, paths, ref, env);
    if namedTagged.Fail? {
      return Fail(Wrap("buildImage#buildFromDf: ", namedTagged.error));
    }
    return namedTagged;
  }

  /** `MountsToPathMappings`, whose body is not part of this model: each mount's local and container path. */
  function MountsToPathMappings(mounts: seq<Assembly.Mount>): (paths: seq<PathMapping>)
    ensures |paths| == |mounts|
    ensures forall i :: 0 <= i < |mounts| ==> paths[i] == PathMapping(mounts[i].localPath, mounts[i].containerPath)
  {
    seq(|mounts|, i requires 0 <= i < |mounts| => PathMapping(mounts[i].localPath, mounts[i].containerPath))
  }

  /**
   * BuildImageFromScratch: the base Dockerfile is validated first
   * (`validate` stands for ValidateBaseDockerfile) and its error returned
   * as it is; then the mounts are built in.
   */
  method BuildImageFromScratch(ref: Named, base: Dockerfile, mounts: seq<Assembly.Mount>, steps: seq<Cmd>, entrypoint: Cmd,
                               validate: Dockerfile -> Option<string>, env: DockerEnv)
    returns (r: Result<NamedTagged, BuildError>)
    ensures validate(base).Some? ==> r == Fail(Error(validate(base).value))
    ensures validate(base).None? ==> r == BuildImageSpec(base, MountsToPathMappings(mounts), steps, entrypoint, ref, env)
  {
    var err := validate(base);
    if err.Some? {
      return Fail(Error(err.value));
    }
    r := BuildImage(base, MountsToPathMappings(mounts), steps, entrypoint, ref, env);
  }

  /**
   * BuildImageFromExisting: build on top of an existing image, under the
   * existing image's name, with no entrypoint.
   */
  method BuildImageFromExisting(existing: NamedTagged, paths: seq<PathMapping>, steps: seq<Cmd>, env: DockerEnv)
    returns (r: Result<NamedTagged, BuildError>)
    ensures r == BuildImageSpec(DockerfileFromExisting(existing), paths, steps, Cmd([]), existing.name, env)
    ensures r.Ok? ==> r.value.name == existing.name
  {
    r := BuildImage(DockerfileFromExisting(existing), paths, steps, Cmd([]), existing.name, env);
  }

  /** On top of an existing image, the Dockerfile starts from it and never sets an entrypoint. */
  lemma ExistingDockerfile(existing: NamedTagged, toRemove: seq<PathMapping>, steps: seq<Cmd>)
    ensures var df := DockerfileFor(DockerfileFromExisting(existing), toRemove, steps, Cmd([]));
      && |df| == 3 + |steps|
      && df[0] == From(TaggedString(existing))
      && forall i :: 0 <= i < |df| ==> !df[i].Entrypoint?
  {
    var df := DockerfileFor(DockerfileFromExisting(existing), toRemove, steps, Cmd([]));
    assert forall i :: 3 <= i < |df| ==> df[i] == Run(steps[i - 3]);
  }
}
