# Tilt resource assembler and Docker image builder, in Dafny

This project models two parts of Tilt, a tool that builds container images
and deploys them to Kubernetes from a declarative Tiltfile.

**The resource assembler** (`internal/tiltfile2/tiltfile_state.go`) runs after
the Tiltfile has been evaluated. The state holds:

- the registered image builds (`imagesByName`);
- the declared resources (`k8s`, `k8sByName`), each a `k8sResource` with a
  name, cluster entities, an image reference and port forwards;
- the cluster entities not yet placed in any resource (`k8sUnresourced`).

`assemble` runs in four steps:

1. It claims one registered image per unresourced entity.
2. For each claimed image, in order, it finds a target resource:
   - first, an empty resource bound to that image;
   - else, an empty resource named after the image's base name;
   - else, a new resource.
3. It moves into the target the entities that carry the image. It then moves
   the entities selected by their pod templates' labels.
4. It puts whatever is left into a resource named `unresourced`. This only
   happens when there were unresourced entities at the start.

`translate` then turns each resource into a manifest.

The model of this part has three layers:

- The state is a `TiltfileState` class whose `K8sResource` objects are
  updated in place (module `Tiltfile`).
- Every method is proved equal to a value-level function over the same
  state read as `ResourceView` records (module `Assembly`).
- The properties of those functions are proved in module
  `AssemblyProperties`. They cover conservation of entities, the catch-all
  resource, ambiguity errors, the placement of every image carrier, resource
  order, the single-pass label sweep and the missing de-duplication of images.

**The Docker image builder** (`internal/build/image_builder.go`) does four
things:

- It writes a Dockerfile from a base, the mounts and the steps.
- It tars the context and asks the Docker daemon to build it.
- It reads the daemon's stream of JSON frames into a result frame. The stream
  also carries printed lines, buildkit progress frames and error frames.
- It takes the image digest from the result frame, tags the image with a
  `tilt-` tag made from the digest and can push it to a registry.

The frame loop `readDockerOutput` is an imperative method proved against a
recursive specification (module `DockerOutput`). That module also proves how
the loop ends:

- the first stopping frame decides the error;
- otherwise the last non-trace aux frame is the result.

The digest readers, tagging, push and build are functions of their inputs and
of a `DockerEnv` value (module `ImageBuilder`). A `DockerEnv` stands for the
daemon, the registry and the file system. Messages, wrapping prefixes and
the order of checks follow the Go code. Strings are sequences of characters,
so lengths and slices count characters where Go counts UTF-8 bytes; the two
agree on ASCII text, which is what digests and tags are made of.

Behaviour of the code worth noting:

- Images are not de-duplicated. Two entities that carry the same image put it
  twice in the claim list, and the second pass fails because the resource
  named after the image already exists (`AssemblyProperties.RepeatedImageFailsAssemble`).
- The label sweep is a single pass. Only the pod templates of the
  image-carrying entities are consulted, and not those of label-matched
  entities (`AssemblyProperties.LabelSweepIsSinglePass`).
- The catch-all resource is made when the unresourced entities were non-empty
  at the START of `assemble`. It is made even when no entity is left over.
- Assembly can fail for reasons other than ambiguity: a resource name may
  already be taken, or a k8s helper may report an error.
- An entity counts as ambiguous when its image references name registered
  images more than once, counted with repetition. The same image twice is
  therefore ambiguous too.
- `buildFromDf` dereferences the result of `readDockerOutput` without a nil
  check. A build output without a result frame is a run-time panic, modelled
  as `Panic`, and not an error value (`ImageBuilder.BuildWithoutResultPanics`).
- `translate` looks up the image of a resource with an image reference
  without checking that it is registered. That lookup yields a nil image
  whose fields are then read, modelled as the `NilImage` error.

## Model

| member | source | states |
|---|---|---|
| Tiltfile.TiltfileState.Assemble | internal/tiltfile2/tiltfile_state.go:91-125 | the resources, the unresourced entities, the returned resources and the error after assemble are exactly those of `AssembleSpec` on the old state (with its deferred catch-all step); the name index stays consistent with the resources; the result is empty on an error before the deferred step, otherwise all resources |
| Tiltfile.TiltfileState.AssembleImages | internal/tiltfile2/tiltfile_state.go:114-122 | the loop over the claimed images leaves the state `ProcessImages` computes and stops at the first error; resources are only kept or freshly made |
| Tiltfile.TiltfileState.AssembleImage | internal/tiltfile2/tiltfile_state.go:115-121 | one iteration: find the target, then extract into it, with the state and error of `ProcessImage` |
| Tiltfile.TiltfileState.FillUnresourced | internal/tiltfile2/tiltfile_state.go:94-108 | the deferred step appends a resource named "unresourced" holding exactly the leftover entities, or reports the taken name and leaves the resources unchanged |
| Tiltfile.TiltfileState.MakeK8sResource | internal/tiltfile2/tiltfile_state.go:101-105 | a taken name is refused with a duplicate-resource error and nothing changes; otherwise one fresh empty resource is appended and indexed by its name |
| Tiltfile.TiltfileState.FindExpandTarget | internal/tiltfile2/tiltfile_state.go:127-145 | the chosen resource is the one `ExpandTarget` selects, by the same precedence; a resource is added only when neither scan finds one, and it is fresh |
| Tiltfile.TiltfileState.FindAwaiting | internal/tiltfile2/tiltfile_state.go:129-141 | each scan returns the index of the first empty resource that matches by image reference (or by name), or none |
| Tiltfile.TiltfileState.FindUnresourcedImages | internal/tiltfile2/tiltfile_state.go:147-174 | the claimed images are those of `UnresourcedImages`: one registered reference per entity that has one, in entity order, or the first entity's error |
| Tiltfile.TiltfileState.RegisteredOf | internal/tiltfile2/tiltfile_state.go:155-160 | the references of an entity whose names are registered, in order, repeats kept |
| Tiltfile.TiltfileState.ExtractImage | internal/tiltfile2/tiltfile_state.go:176-201 | the destination entities, the unresourced entities, the bound image reference and the error are those of `ExtractImageSpec`; the image reference is bound only when no error occurred |
| Tiltfile.TiltfileState.SweepInto | internal/tiltfile2/tiltfile_state.go:190-197 | one label sweep per pod template, in order, moving the matching unresourced entities to the destination |
| Tiltfile.TiltfileState.ExtractAt | internal/tiltfile2/tiltfile_state.go:119 | extracting into one resource changes only that resource among all resources |
| Tiltfile.TiltfileState.Translate | internal/tiltfile2/tiltfile_state.go:203-236 | the manifests are those of `TranslateSpec` over the resources read as values |
| Assembly.RegisteredRefs | internal/tiltfile2/tiltfile_state.go:155-160 | a reference is kept exactly when it is among the entity's images and its name is registered; there are no more of them than images |
| Assembly.RegisteredRefsCounts | internal/tiltfile2/tiltfile_state.go:155-160 | each registered reference is kept exactly as often as it occurs among the entity's images, and an unregistered one not at all: nothing is de-duplicated |
| Assembly.ClaimOf | internal/tiltfile2/tiltfile_state.go:151-171 | an entity is claimable exactly when its images are found and at most one of them is registered; the claim is that registered reference, or none when no image name is registered; a failure to find the images is wrapped as a k8s error |
| Assembly.UnresourcedImages | internal/tiltfile2/tiltfile_state.go:147-174 | the claimed images are no more than the entities |
| Assembly.UnresourcedImagesOk | internal/tiltfile2/tiltfile_state.go:147-174 | findUnresourcedImages succeeds exactly when every entity's images are found and no entity has more than one registered reference, and then lists every registered reference of every entity, in order, without de-duplication |
| Assembly.UnresourcedImagesFails | internal/tiltfile2/tiltfile_state.go:150-170 | a failure is the error of the first entity that cannot be claimed |
| Assembly.FirstAwaiting | internal/tiltfile2/tiltfile_state.go:129-141 | the result is the least index of an empty resource matching the criterion, and none exactly when there is no such resource |
| Assembly.Base | internal/tiltfile2/tiltfile_state.go:136 | the base name of an image name is non-empty and is "/" or holds no slash |
| Assembly.MakeResource | internal/tiltfile2/tiltfile_state.go:101-105 | refuses exactly the taken names, with the duplicate-resource error; otherwise extends the resources by one, keeping the old ones in front |
| Assembly.ExpandTarget | internal/tiltfile2/tiltfile_state.go:127-145 | the target index is in range, and the resources are unchanged or gain exactly one empty resource named after the image's base name |
| Assembly.ExpandTargetPrecedence | internal/tiltfile2/tiltfile_state.go:127-145 | first the first empty resource bound to the image; else the first empty resource named after its base name; else a new resource with that name, or the duplicate error when it is taken |
| Assembly.SweepTemplatesConserves | internal/tiltfile2/tiltfile_state.go:190-197 | a label sweep neither loses nor duplicates an entity |
| Assembly.SweepTemplatesAppends | internal/tiltfile2/tiltfile_state.go:190-197 | a label sweep only appends to the destination |
| Assembly.SweepEntitiesConserves | internal/tiltfile2/tiltfile_state.go:185-198 | the sweeps over all extracted entities neither lose nor duplicate an entity, even when one of them fails |
| Assembly.SweepEntitiesAppends | internal/tiltfile2/tiltfile_state.go:185-198 | the sweeps only append to the destination |
| Assembly.ExtractImageSpec | internal/tiltfile2/tiltfile_state.go:176-201 | extractImage keeps every entity, in the destination or still unresourced, as often as before, and leaves the destination's earlier entities in front |
| Assembly.AssembleSpec | internal/tiltfile2/tiltfile_state.go:91-125 | with no unresourced entities, assemble changes nothing, returns every resource and reports no error |
| Assembly.FillUnresourcedSpec | internal/tiltfile2/tiltfile_state.go:94-108 | the deferred step returns every resource and leaves the unresourced entities as they are |
| Assembly.ProcessImage | internal/tiltfile2/tiltfile_state.go:115-121 | one image step adds at most one resource and never adds unresourced entities |
| Assembly.ProcessImages | internal/tiltfile2/tiltfile_state.go:114-122 | the image loop adds at most one resource per image and never adds unresourced entities |
| Assembly.ManifestFor | internal/tiltfile2/tiltfile_state.go:205-231 | a resource translates exactly when it serializes and its non-empty image reference is registered; the manifest keeps the name, port forwards and YAML, and carries the registered image exactly when there is an image reference; a serialization failure is wrapped as a k8s error |
| Assembly.TranslateSpec | internal/tiltfile2/tiltfile_state.go:203-236 | a successful translate yields as many manifests as resources |
| Assembly.TranslateSpecOk | internal/tiltfile2/tiltfile_state.go:203-236 | translate succeeds exactly when every resource serializes and every non-empty image reference is registered; then manifest i carries resource i's name, port forwards, YAML and, only when it has an image reference, that registered image |
| AssemblyProperties.ExtractImageSinglePass | internal/tiltfile2/tiltfile_state.go:176-201 | after a successful extractImage the destination is the old entities, then the image carriers in order, then entities that do not carry the image but match a pod template of the carriers; the unresourced entities left are, in order, exactly those that neither carry the image nor match one of those templates |
| AssemblyProperties.SweepSkipsMatchedTemplates | internal/tiltfile2/tiltfile_state.go:185-198 | only the templates of image-extracted entities are swept: an entity moved by labels does not bring in what its own templates select |
| AssemblyProperties.LabelSweepIsSinglePass | internal/tiltfile2/tiltfile_state.go:185-198 | a deployment, the service it selects and a database only the service selects: the database stays unresourced |
| AssemblyProperties.LabelSweepExample | internal/tiltfile2/tiltfile_state.go:185-198 | concrete entities meet the premises of the single-pass lemma |
| AssemblyProperties.ExtractImageKeeps | internal/tiltfile2/tiltfile_state.go:176-201 | extractImage only takes entities out of the unresourced ones |
| AssemblyProperties.ExpandTargetPlaced | internal/tiltfile2/tiltfile_state.go:127-145 | choosing a target places no entity |
| AssemblyProperties.ProcessImageConserves | internal/tiltfile2/tiltfile_state.go:115-121 | one image step keeps every entity, placed or unresourced, as often as before |
| AssemblyProperties.ProcessImagesConserves | internal/tiltfile2/tiltfile_state.go:114-122 | the image loop keeps every entity, placed or unresourced, as often as before |
| AssemblyProperties.AssembleConserves | internal/tiltfile2/tiltfile_state.go:91-125 | a successful assemble returns resources that hold every entity previously placed plus every unresourced entity, each exactly as often as before |
| AssemblyProperties.AssembleLoopFails | internal/tiltfile2/tiltfile_state.go:114-120 | when the image loop stops with an error, assemble returns no resources and that error, and leaves the state as the loop left it, without the deferred step |
| AssemblyProperties.AssembleCatchAll | internal/tiltfile2/tiltfile_state.go:92-108 | with unresourced entities at the start and no earlier error, assemble returns the resources followed by one named "unresourced" holding exactly the leftovers, or fails with the duplicate-name error and still returns the resources when that name is taken |
| AssemblyProperties.AmbiguousEntityFailsAssemble | internal/tiltfile2/tiltfile_state.go:164-170 | an entity referring to more than one registered image name (with repetition) makes assemble fail with no resources and an unchanged state; as the first unclaimable entity it produces the multiple-images error naming its references and rendering |
| AssemblyProperties.ProcessImageRestShrinks | internal/tiltfile2/tiltfile_state.go:115-121 | one image step only removes unresourced entities |
| AssemblyProperties.ProcessImagesRestShrinks | internal/tiltfile2/tiltfile_state.go:114-122 | the image loop only removes unresourced entities |
| AssemblyProperties.ProcessImageClears | internal/tiltfile2/tiltfile_state.go:176-201 | after a successful step for an image, no unresourced entity carries that image |
| AssemblyProperties.ProcessImagesClears | internal/tiltfile2/tiltfile_state.go:114-122 | after a successful loop, no unresourced entity carries any of the processed images |
| AssemblyProperties.AllRegisteredRefsHas | internal/tiltfile2/tiltfile_state.go:150-172 | every registered reference of every entity is among the claimed images |
| AssemblyProperties.ImageCarriersArePlaced | internal/tiltfile2/tiltfile_state.go:110-122 | after a successful assemble, no entity that refers to a registered image is left among the unresourced ones |
| AssemblyProperties.ProcessImageKeepsOrder | internal/tiltfile2/tiltfile_state.go:115-121 | one image step keeps the existing resources by name and position |
| AssemblyProperties.ProcessImagesKeepsOrder | internal/tiltfile2/tiltfile_state.go:114-122 | assemble keeps the resources it started with, by name and in declaration order, and only appends new ones |
| AssemblyProperties.RepeatedClaims | internal/tiltfile2/tiltfile_state.go:171 | two entities claiming the same image list it twice |
| AssemblyProperties.FirstPassTakesBoth | internal/tiltfile2/tiltfile_state.go:114-121 | the first pass for that image creates its resource and moves both entities into it |
| AssemblyProperties.SecondPassCollides | internal/tiltfile2/tiltfile_state.go:127-145 | a non-empty resource named after the image makes the next pass fail with the duplicate-name error and no change |
| AssemblyProperties.RepeatedImageFailsAssemble | internal/tiltfile2/tiltfile_state.go:147-174 | because claims are not de-duplicated, two entities with the same image make assemble fail with the duplicate-name error |
| AssemblyProperties.NoTemplatesNoSweep | internal/tiltfile2/tiltfile_state.go:185-198 | entities without pod templates move nothing by labels |
| K8s.FilterByImage | internal/tiltfile2/tiltfile_state.go:177-180 | filtering by image succeeds exactly when every entity's images are found |
| K8s.FilterByImageConserves | internal/tiltfile2/tiltfile_state.go:177-183 | every entity goes to exactly one side of the image filter |
| K8s.FilterByImageSplits | internal/tiltfile2/tiltfile_state.go:177-183 | the entities moved carry the image and the others do not |
| K8s.FilterByLabelsConserves | internal/tiltfile2/tiltfile_state.go:191-196 | every entity goes to exactly one side of the label filter |
| K8s.FilterByLabelsSplits | internal/tiltfile2/tiltfile_state.go:191-196 | the entities moved match the selector and the others do not |
| K8s.SerializeYAML | internal/tiltfile2/tiltfile_state.go:210-213 | serialization succeeds exactly when every entity can be serialized |
| DockerOutput.PrintedLine | internal/build/image_builder.go:325-331 | a line is printed exactly for a non-empty stream other than "\n", and it is the stream without its one trailing newline |
| DockerOutput.FrameStep | internal/build/image_builder.go:333-390 | a non-empty error message stops with that message; else a structured error stops with its message; a frame is kept exactly when it has neither and is not a buildkit trace, and then its aux is the candidate result; a trace step carries the decoded trace of a buildkit frame |
| DockerOutput.ReadSpec | internal/build/image_builder.go:289-396 | a decoded result is the aux of the last kept frame that has one, or the starting one; at most one printed line and one trace per frame |
| DockerOutput.TraceFrameIgnored | internal/build/image_builder.go:388-400 | a buildkit trace frame (id "moby.buildkit.trace") never becomes the result: dropping it leaves the last result frame unchanged |
| DockerOutput.ReadDockerOutput | internal/build/image_builder.go:289-396 | the loop over the frames yields the result, printed lines and progress updates of `ReadSpec` |
| DockerOutput.ReadSpecRuns | internal/build/image_builder.go:312-395 | with no stopping frame, the result is the aux of the last non-trace frame that has one (none if none), every line is printed and every trace is shown, in order |
| DockerOutput.ReadSpecStops | internal/build/image_builder.go:315-350 | at the first stopping frame (undecodable, error message, error, or bad trace) decoding fails with that frame's error, after printing the lines up to and including its own and the traces before it |
| DockerOutput.LastAuxIsLast | internal/build/image_builder.go:388-390 | the recorded result comes from a frame with an aux that is not a trace, and no later frame has one: later frames override earlier ones |
| DockerOutput.ErrorMessageEndsDecoding | internal/build/image_builder.go:333-335 | a non-empty error message ends decoding with that message, ahead of the structured error and of any aux, after the frame's own line |
| DockerOutput.ErrorEndsDecoding | internal/build/image_builder.go:337-339 | a structured error with an empty error message ends decoding with the error's message |
| DockerOutput.StringMembersOk | internal/build/image_builder.go:437-441 | decoding into a map of strings succeeds exactly when every member is a string or null, and the last member of a key wins |
| DockerOutput.StringMapOfOk | internal/build/image_builder.go:437-441 | decoding an aux into a map of strings succeeds exactly for null or an object of strings (or nulls); a key is present exactly when the object has a member of that name, with its last value |
| DockerOutput.DigestFromAux | internal/build/image_builder.go:436-448 | every failure is an error prefixed "getDigestFromAux: " |
| DockerOutput.DigestFromAuxOk | internal/build/image_builder.go:436-448 | the digest is found exactly when the aux is an object of strings (or nulls) with an "ID" member, and it is the last "ID" value |
| DockerOutput.GetDigestFromBuildOutput | internal/build/image_builder.go:402-411 | a decoding failure is returned unchanged; a digest comes from the digest of the last result frame |
| DockerOutput.BuildDigestFromLastAux | internal/build/image_builder.go:402-411 | with no stopping frame, no result frame is the "No results found" error and otherwise the digest is that of the last result frame |
| DockerOutput.GetDigestFromPushOutput | internal/build/image_builder.go:413-434 | a push digest is never empty; a decoding failure is returned unchanged; no result frame is the "No digest found in push output" error; a digest is the Digest field of the last result frame, decoded as a push result |
| DockerOutput.PushDigestFromLastAux | internal/build/image_builder.go:413-434 | with no stopping frame, no result frame is the "No digest found in push output" error; the push digest is found exactly when there is a result frame, it decodes as a push result and its Digest is non-empty, and it is that Digest |
| DockerOutput.PushMembersOk | internal/build/image_builder.go:423-427 | decoding the members of a push result succeeds exactly when every Tag and Digest member is a string or null and every Size member a number or null; the digest and tag are then those of the last non-null member of that name, or stay as they were |
| DockerOutput.PushOutputOfOk | internal/build/image_builder.go:423-427 | null decodes as the empty push result; a push result decodes exactly when it is null or an object whose members have the right kinds, and its digest is the last non-null Digest member, or empty |
| DockerOutput.PushMembersKeepDigest | internal/build/image_builder.go:423-424 | members that are not a non-null Digest leave the digest field as it was |
| DockerOutput.PushWithoutDigestFails | internal/build/image_builder.go:423-431 | a push result without a non-null Digest member is refused |
| Docker.WithTag | internal/build/image_builder.go:119-122 | a tag is accepted exactly when it fits the reference tag grammar, and the tagged name keeps the name and tag |
| Docker.Encoded | internal/build/image_builder.go:451 | the encoded part of a digest exists exactly when it has a ':'; otherwise the digest library panics |
| ImageBuilder.DigestAsTag | internal/build/image_builder.go:450-456 | a tag is "tilt-" and 16 further characters; a digest without ':' panics |
| ImageBuilder.DigestAsTagShape | internal/build/image_builder.go:450-456 | a tag exists exactly when at least 16 characters follow the first ':', and it is "tilt-" with those 16 characters; otherwise "Digest too short: " with the encoded part |
| ImageBuilder.HexDigestTagValid | internal/build/image_builder.go:450-456 | a digest whose encoded part starts with 16 hex digits gives a tag the reference grammar accepts |
| ImageBuilder.TagImage | internal/build/image_builder.go:113-130 | a tagged image keeps the name and has a valid "tilt-" tag of 21 characters |
| ImageBuilder.TagImageOk | internal/build/image_builder.go:113-130 | tagging succeeds exactly when the digest gives a valid tag and the daemon accepts it, and the result is the name with that tag |
| ImageBuilder.PushImage | internal/build/image_builder.go:137-194 | a successful push returns the reference it was given and did push; a name without a domain is refused before any push |
| ImageBuilder.PushImageOk | internal/build/image_builder.go:137-194 | a push succeeds exactly when the client setup succeeds, the name has a domain, the registry accepts the push and its output has a digest |
| ImageBuilder.PushImageOrder | internal/build/image_builder.go:143-180 | setup errors come before the domain check, and the domain check before the push |
| ImageBuilder.TarContext | internal/build/image_builder.go:243-278 | the paths are archived before the Dockerfile: a path error wins, and a Dockerfile error is reported only when the paths succeed, each with its prefix |
| ImageBuilder.BuildFromDf | internal/build/image_builder.go:196-241 | a built image is tagged under the requested name with a valid "tilt-" tag; a tar error is returned as it is |
| ImageBuilder.BuildFromDfDigest | internal/build/image_builder.go:225-240 | a clean build output is tagged with the digest of its last result frame |
| ImageBuilder.BuildWithoutResultPanics | internal/build/image_builder.go:225-230 | a clean build output with no result frame panics on the nil result |
| ImageBuilder.Runs | internal/build/image_builder.go:95-97 | one RUN instruction per step, in order |
| ImageBuilder.DockerfileFor | internal/build/image_builder.go:87-101 | the Dockerfile is the base, ADD of the context, the removal of the missing paths, one RUN per step and an ENTRYPOINT exactly when one is given |
| ImageBuilder.BuildImageSpec | internal/build/image_builder.go:84-110 | a built image is tagged under the requested name with a valid tag; a missing-path lookup failure is reported with the "buildImage: " prefix |
| ImageBuilder.BuildImage | internal/build/image_builder.go:84-110 | the instruction-by-instruction loop builds the result `BuildImageSpec` describes |
| ImageBuilder.MountsToPathMappings | internal/build/image_builder.go:71 | one path mapping per mount, with the same local and container paths |
| ImageBuilder.BuildImageFromScratch | internal/build/image_builder.go:60-72 | an invalid base Dockerfile is reported as it is before anything is built; otherwise the build is that of the base with the mounts |
| ImageBuilder.BuildImageFromExisting | internal/build/image_builder.go:74-82 | the build starts from the existing image, without an entrypoint, and a built image keeps the existing image's name |
| ImageBuilder.ExistingDockerfile | internal/build/image_builder.go:80-81 | a Dockerfile on top of an existing image starts from it and has no ENTRYPOINT |

## Left out

- The Tiltfile builtins (`docker_build`, `k8s_yaml`, `k8s_resource`, and so
  on) and the Starlark interpreter are not part of this model. Neither are
  the rest of `tiltfileState`: the state they produce is the starting state
  of `assemble`.
- The Kubernetes helpers (`FindImages`, `FilterByImage`, `FilterByLabels`,
  `ExtractPodTemplateSpec`, `SerializeYAML`) are not part of this model. An
  entity carries their outcomes as data. `FilterByImage` and `FilterByLabels`
  are order-preserving filters; `FilterByLabels` never fails, and its error
  branch at tiltfile_state.go:192 is not modelled.
- K8s.SerializeYAML: joins the entities' own texts with YAML document
  separators. The real YAML encoder is not part of this model.
- Tiltfile.TiltfileState.MakeK8sResource: the body of `makeK8sResource` is not
  part of this model. The model takes it that a name already in `k8sByName` is
  refused with a duplicate-resource error, and that otherwise a fresh empty
  resource is appended to `k8s` and indexed by its name, with no further
  effects. The duplicate-name results (`RepeatedImageFailsAssemble`,
  `SecondPassCollides`, `ExpandTargetPrecedence` and the taken-name branch of
  `AssembleCatchAll`) rest on this.
- Tiltfile.TiltfileState.Translate: the port forwards, mounts and
  repositories are copied as they are held, not converted to their domain
  types. The manifest carries the whole registered image record.
- Assembly.Base: `filepath.Base` on '/'-separated names only. The contract
  states only that the result is non-empty and has no inner slash.
- The logging and opentracing spans of both files, and the progress display
  and its channel, are not modelled. The printed lines and progress updates
  are returned as sequences instead of being sent to an output sink.
- JSON decoding is not modelled. The frames of a Docker response arrive
  already decoded, and a decoder error arrives as an `Undecodable` frame.
  Decoding a buildkit trace's base64 and protobuf payload is the
  `decodeTrace` parameter.
- DockerOutput.PushMembers: matches keys to struct fields by ASCII case
  folding only (encoding/json also folds some non-ASCII letters). Only the
  kinds of JSON values are checked, not numeric ranges.
- The `%+v` rendering of a raw JSON message in the push errors is the
  message's text.
- The Docker daemon and registry calls (`ImageBuild`, `ImageTag`,
  `ImagePush`), the push client setup (`ParseRepositoryInfo`,
  `Initialize`, `EncodeAuthToBase64`), and the file-system and tar helpers
  (`missingLocalPaths`, `archivePathsIfExist`, `archiveDf`) are fields of a
  `DockerEnv`. Each is a total function of what it is given; the push client
  setup is a function of the reference being pushed. Closing a response
  body, and the errors it can log, is not modelled.
- ImageBuilder.BuildImageFromScratch: `ValidateBaseDockerfile` is a
  parameter (`validate`), because its body is not part of this model.
- Docker.DockerfileFromExisting: the Dockerfile is a single FROM line.
  Its body is not part of this model.
- ImageBuilder.MountsToPathMappings: stands in for a helper whose body is
  not part of this model.
- The Dockerfile methods (`AddAll`, `RmPaths`, `Run`, `Entrypoint`) are not
  part of this model. Each appends one instruction here, `RmPaths` included
  when its list is empty. The text of the instructions is not modelled.
- ImageBuilder.DigestAsTag: counts the 16 characters of the tag, and the
  "Digest too short" threshold, in characters where Go slices and measures
  UTF-8 bytes. The two agree whenever the encoded part of the digest is
  ASCII, as a hex digest is; a non-ASCII digest (for example "sha256:"
  followed by nine "é") is a tag in Go but too short here.
- ImageBuilder.DigestAsTagShape: states the tag shape in characters, as
  `DigestAsTag` counts them; it matches Go only for ASCII encoded parts.
- The `context.Context` of every call and its cancellation are not modelled.
