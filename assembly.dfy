/**
 * Value-level specification of the resource assembler of
 * internal/tiltfile2/tiltfile_state.go: the state of a `tiltfileState` seen as
 * values (resources as ResourceView records, in declaration order), and one
 * function per step of `assemble` and `translate`. The imperative model in
 * module Tiltfile is proved to follow these functions; the lemmas here state
 * what the steps guarantee.
 */
module Assembly {
  import opened Results
  import opened K8s

  const UnresourcedName: string := "unresourced"

  datatype PortForward = PortForward(localPort: int, containerPort: int)

  datatype Mount = Mount(localPath: string, containerPath: string)

  /** A registered image build (`dockerImage`), immutable once declared. */
  datatype DockerImage = DockerImage(
    ref: ImageRef,
    baseDockerfile: string,
    staticDockerfile: string,
    staticBuildPath: string,
    staticBuildArgs: map<string, string>,
    mounts: seq<Mount>,
    steps: seq<string>,
    entrypoint: string,
    cachePaths: seq<string>,
    tiltFilename: string,
    repos: seq<string>)

  /** The fields of one `k8sResource` at one moment. */
  datatype ResourceView = ResourceView(
    name: string,
    k8s: seq<K8sEntity>,
    imageRef: string,
    portForwards: seq<PortForward>)

  datatype TiltError =
    | K8sError(msg: string)                             // an error reported by a k8s helper
    | MultipleImages(images: seq<ImageRef>, entity: string)
    | DuplicateResource(name: string)                   // makeK8sResource on a taken name
    | NilImage(imageRef: string)                        // the nil dereference of an unregistered imageRef

  /** The assembler's output unit; `image` is None for a deploy-only manifest. */
  datatype Manifest = Manifest(
    name: string,
    k8sYaml: string,
    portForwards: seq<PortForward>,
    image: Option<DockerImage>)

  // ---------------------------------------------------------------------------
  // findUnresourcedImages

  /** The references among `images` whose name is registered, in order, repeats kept. */
  function RegisteredRefs(images: seq<ImageRef>, registered: map<string, DockerImage>): (r: seq<ImageRef>)
    ensures forall x :: x in r <==> x in images && x.name in registered
    ensures |r| <= |images|
  {
    if images == [] then []
    else (if images[0].name in registered then [images[0]] else []) + RegisteredRefs(images[1..], registered)
  }

  /** Each registered reference is kept as often as it occurs: nothing is de-duplicated. */
  lemma {:induction false} RegisteredRefsCounts(images: seq<ImageRef>, registered: map<string, DockerImage>)
    ensures forall x :: multiset(RegisteredRefs(images, registered))[x] == if x.name in registered then multiset(images)[x] else 0
  {
    if images != [] {
      RegisteredRefsCounts(images[1..], registered);
      assert images == [images[0]] + images[1..];
    }
  }

  lemma RegisteredRefsStep(images: seq<ImageRef>, registered: map<string, DockerImage>, acc: seq<ImageRef>, j: nat)
    requires j < |images|
    ensures var step := if images[j].name in registered then acc + [images[j]] else acc;
      step + RegisteredRefs(images[j + 1..], registered) == acc + RegisteredRefs(images[j..], registered)
  {
    assert images[j..][1..] == images[j + 1..];
    var tail := RegisteredRefs(images[j + 1..], registered);
    assert acc + [images[j]] + tail == acc + ([images[j]] + tail);
    assert [] + tail == tail;
  }

  /** The rendering of an entity used in the ambiguity error: its YAML, or the serialization error. */
  function EntityText(e: K8sEntity): string {
    match SerializeYAML([e])
    case Ok(s) => s
    case Fail(msg) => msg
  }

  /** What one entity contributes to findUnresourcedImages: nothing, its image, or an error. */
  function ClaimOf(e: K8sEntity, registered: map<string, DockerImage>): (r: Result<Option<ImageRef>, TiltError>)
    ensures r.Ok? <==> FindImages(e).Ok? && |RegisteredRefs(FindImages(e).value, registered)| <= 1
    ensures r.Ok? && r.value.Some? ==> r.value.value in FindImages(e).value && r.value.value.name in registered
    ensures r.Ok? && r.value.None? ==> forall x :: x in FindImages(e).value ==> x.name !in registered
    ensures FindImages(e).Fail? ==> r == Fail(K8sError(FindImages(e).error))
  {
    match FindImages(e)
    case Fail(msg) => Fail(K8sError(msg))
    case Ok(imgs) =>
      var refs := RegisteredRefs(imgs, registered);
      if |refs| == 0 then Ok(None)
      else if |refs| > 1 then Fail(MultipleImages(refs, EntityText(e)))
      else Ok(Some(refs[0]))
  }

  /** Every registered reference of every entity, entity by entity, in order. */
  function AllRegisteredRefs(es: seq<K8sEntity>, registered: map<string, DockerImage>): seq<ImageRef>
    requires forall i :: 0 <= i < |es| ==> es[i].images.Ok?
  {
    if es == [] then []
    else RegisteredRefs(es[0].images.value, registered) + AllRegisteredRefs(es[1..], registered)
  }

  /** The result of findUnresourcedImages over `es`. */
  function UnresourcedImages(es: seq<K8sEntity>, registered: map<string, DockerImage>): (r: Result<seq<ImageRef>, TiltError>)
    ensures r.Ok? ==> |r.value| <= |es|
  {
    if es == [] then Ok([])
    else
      match ClaimOf(es[0], registered)
      case Fail(e) => Fail(e)
      case Ok(claim) =>
        match UnresourcedImages(es[1..], registered)
        case Fail(e) => Fail(e)
        case Ok(tail) =>
          match claim
          case None => Ok(tail)
          case Some(img) => Ok([img] + tail)
  }

  /** findUnresourcedImages succeeds exactly when no entity fails, and then lists every registered reference in order. */
  lemma {:induction false} UnresourcedImagesOk(es: seq<K8sEntity>, registered: map<string, DockerImage>)
    ensures UnresourcedImages(es, registered).Ok? <==> forall i :: 0 <= i < |es| ==> ClaimOf(es[i], registered).Ok?
    ensures UnresourcedImages(es, registered).Ok? ==> UnresourcedImages(es, registered).value == AllRegisteredRefs(es, registered)
  {
    if es != [] {
      UnresourcedImagesOk(es[1..], registered);
      assert forall i :: 1 <= i < |es| ==> es[i] == es[1..][i - 1];
    }
  }

  /** When findUnresourcedImages fails, its error is that of the first entity that fails. */
  lemma {:induction false} UnresourcedImagesFails(es: seq<K8sEntity>, registered: map<string, DockerImage>) returns (i: nat)
    requires UnresourcedImages(es, registered).Fail?
    ensures i < |es| && ClaimOf(es[i], registered) == Fail(UnresourcedImages(es, registered).error)
    ensures forall j :: 0 <= j < i ==> ClaimOf(es[j], registered).Ok?
  {
    if ClaimOf(es[0], registered).Fail? {
      i := 0;
    } else {
      var k := UnresourcedImagesFails(es[1..], registered);
      i := k + 1;
      assert forall j :: 1 <= j < |es| ==> es[j] == es[1..][j - 1];
    }
  }

  /** Stepping findUnresourcedImages over one entity at a time. */
  lemma UnresourcedImagesStep(es: seq<K8sEntity>, registered: map<string, DockerImage>, i: nat)
    requires i < |es|
    ensures var claim := ClaimOf(es[i], registered);
      UnresourcedImages(es[i..], registered) ==
        if claim.Fail? then Fail(claim.error)
        else if claim.value.None? then UnresourcedImages(es[i + 1..], registered)
        else Prepend([claim.value.value], UnresourcedImages(es[i + 1..], registered))
  {
    assert es[i..][1..] == es[i + 1..];
  }

  // ---------------------------------------------------------------------------
  // findExpandTarget

  /** How findExpandTarget recognises an existing empty resource. */
  datatype Criterion = ByImageRef(imageName: string) | ByName(name: string)

  predicate Awaits(v: ResourceView, c: Criterion) {
    |v.k8s| == 0 &&
    match c
    case ByImageRef(n) => v.imageRef == n
    case ByName(n) => v.name == n
  }

  /** The first resource, in declaration order, that satisfies `c`. */
  function FirstAwaiting(vs: seq<ResourceView>, c: Criterion): (r: Option<nat>)
    ensures r.Some? ==> r.value < |vs| && Awaits(vs[r.value], c)
    ensures r.Some? ==> forall j :: 0 <= j < r.value ==> !Awaits(vs[j], c)
    ensures r.None? ==> forall j :: 0 <= j < |vs| ==> !Awaits(vs[j], c)
  {
    if vs == [] then None
    else if Awaits(vs[0], c) then Some(0)
    else
      match FirstAwaiting(vs[1..], c)
      case None => None
      case Some(k) => Some(k + 1)
  }

  lemma FirstAwaitingAt(vs: seq<ResourceView>, c: Criterion, i: nat)
    requires i < |vs| && Awaits(vs[i], c)
    requires forall j :: 0 <= j < i ==> !Awaits(vs[j], c)
    ensures FirstAwaiting(vs, c) == Some(i)
  {
  }

  function TrimTrailingSlashes(p: string): (r: string)
    ensures |r| <= |p| && r == p[..|r|]
    ensures r == "" || r[|r| - 1] != '/'
  {
    if p != "" && p[|p| - 1] == '/' then TrimTrailingSlashes(p[..|p| - 1]) else p
  }

  function AfterLastSlash(p: string): (r: string)
    ensures '/' !in r
    ensures p != "" && p[|p| - 1] != '/' ==> r != ""
  {
    if p == "" || p[|p| - 1] == '/' then ""
    else AfterLastSlash(p[..|p| - 1]) + [p[|p| - 1]]
  }

  /** `filepath.Base` on a slash-separated path: the last element. */
  function Base(path: string): (r: string)
    ensures r != ""
    ensures r == "/" || '/' !in r
  {
    if path == "" then "."
    else
      var t := TrimTrailingSlashes(path);
      if t == "" then "/" else AfterLastSlash(t)
  }

  predicate NameTaken(vs: seq<ResourceView>, name: string) {
    exists i :: 0 <= i < |vs| && vs[i].name == name
  }

  /**
   * makeK8sResource, whose body is not part of this model: it refuses a name
   * already registered and otherwise appends an empty resource.
   */
  function MakeResource(vs: seq<ResourceView>, name: string): (r: Result<seq<ResourceView>, TiltError>)
    ensures r.Fail? <==> NameTaken(vs, name)
    ensures r.Fail? ==> r.error == DuplicateResource(name)
    ensures r.Ok? ==> |r.value| == |vs| + 1 && r.value[..|vs|] == vs
  {
    if NameTaken(vs, name) then Fail(DuplicateResource(name))
    else Ok(vs + [ResourceView(name, [], "", [])])
  }

  /** The chosen resource: the (possibly extended) resources and its index. */
  datatype Target = Target(views: seq<ResourceView>, index: nat)

  /** findExpandTarget: an existing resource, or a new empty one appended at the end. */
  function ExpandTarget(vs: seq<ResourceView>, image: ImageRef): (r: Result<Target, TiltError>)
    ensures r.Ok? ==> r.value.index < |r.value.views|
    ensures r.Ok? ==> r.value.views == vs || r.value.views == vs + [ResourceView(Base(image.name), [], "", [])]
  {
    match FirstAwaiting(vs, ByImageRef(image.name))
    case Some(i) => Ok(Target(vs, i))
    case None =>
      match FirstAwaiting(vs, ByName(Base(image.name)))
      case Some(i) => Ok(Target(vs, i))
      case None =>
        match MakeResource(vs, Base(image.name))
        case Fail(e) => Fail(e)
        case Ok(vs') => Ok(Target(vs', |vs|))
  }

  /** The three-step precedence of findExpandTarget. */
  lemma ExpandTargetPrecedence(vs: seq<ResourceView>, image: ImageRef)
    // first, the first empty resource bound to this exact image name
    ensures var r := ExpandTarget(vs, image);
      (exists i :: 0 <= i < |vs| && Awaits(vs[i], ByImageRef(image.name))) ==>
        r.Ok? && r.value.views == vs && Awaits(vs[r.value.index], ByImageRef(image.name)) &&
        forall j :: 0 <= j < r.value.index ==> !Awaits(vs[j], ByImageRef(image.name))
    // next, the first empty resource named after the image's base name
    ensures var r := ExpandTarget(vs, image);
      ((forall i :: 0 <= i < |vs| ==> !Awaits(vs[i], ByImageRef(image.name))) &&
       (exists i :: 0 <= i < |vs| && Awaits(vs[i], ByName(Base(image.name))))) ==>
        r.Ok? && r.value.views == vs && Awaits(vs[r.value.index], ByName(Base(image.name))) &&
        forall j :: 0 <= j < r.value.index ==> !Awaits(vs[j], ByName(Base(image.name)))
    // otherwise, a new empty resource with that base name, unless the name is taken
    ensures var r := ExpandTarget(vs, image);
      (forall i :: 0 <= i < |vs| ==> !Awaits(vs[i], ByImageRef(image.name)) && !Awaits(vs[i], ByName(Base(image.name)))) ==>
        r == if NameTaken(vs, Base(image.name)) then Fail(DuplicateResource(Base(image.name)))
             else Ok(Target(vs + [ResourceView(Base(image.name), [], "", [])], |vs|))
  {
    var a := FirstAwaiting(vs, ByImageRef(image.name));
    var b := FirstAwaiting(vs, ByName(Base(image.name)));
    if a.None? && b.None? && !NameTaken(vs, Base(image.name)) {
      assert MakeResource(vs, Base(image.name)) == Ok(vs + [ResourceView(Base(image.name), [], "", [])]);
    }
  }

  // ---------------------------------------------------------------------------
  // extractImage

  /** The destination resource's entities and the still unresourced entities. */
  datatype Pool = Pool(dest: seq<K8sEntity>, rest: seq<K8sEntity>)

  /** Where extractImage stops: the pool reached, and the error that stopped it, if any. */
  datatype Sweep = Sweep(pool: Pool, err: Option<string>)

  /** Moves the remaining entities that match `selector` to the destination. */
  function MoveByLabels(p: Pool, selector: Labels): Pool {
    var s := FilterByLabels(p.rest, selector);
    Pool(p.dest + s.passing, s.rest)
  }

  /** The inner loop of extractImage: one label sweep per pod template, in order. */
  function SweepTemplates(p: Pool, templates: seq<Labels>): Pool
    decreases |templates|
  {
    if templates == [] then p
    else SweepTemplates(MoveByLabels(p, templates[0]), templates[1..])
  }

  /** The outer loop of extractImage: the pod templates of each image-extracted entity. */
  function SweepEntities(p: Pool, extracted: seq<K8sEntity>): Sweep
    decreases |extracted|
  {
    if extracted == [] then Sweep(p, None)
    else
      match ExtractPodTemplateSpec(extracted[0])
      case Fail(msg) => Sweep(p, Some(msg))
      case Ok(templates) => SweepEntities(SweepTemplates(p, templates), extracted[1..])
  }

  /** A sweep keeps every entity, in the destination or among the remaining ones. */
  lemma {:induction false} SweepTemplatesConserves(p: Pool, templates: seq<Labels>)
    ensures var r := SweepTemplates(p, templates);
      multiset(r.dest) + multiset(r.rest) == multiset(p.dest) + multiset(p.rest)
    decreases |templates|
  {
    if templates != [] {
      var s := FilterByLabels(p.rest, templates[0]);
      var q := MoveByLabels(p, templates[0]);
      FilterByLabelsConserves(p.rest, templates[0]);
      assert multiset(q.dest) + multiset(q.rest) == multiset(p.dest) + multiset(s.passing) + multiset(s.rest);
      SweepTemplatesConserves(q, templates[1..]);
    }
  }

  /** A sweep appends to the destination, after what was there. */
  lemma {:induction false} SweepTemplatesAppends(p: Pool, templates: seq<Labels>)
    ensures var r := SweepTemplates(p, templates);
      |p.dest| <= |r.dest| && r.dest[..|p.dest|] == p.dest
    decreases |templates|
  {
    if templates != [] {
      var q := MoveByLabels(p, templates[0]);
      assert q.dest[..|p.dest|] == p.dest;
      var r := SweepTemplates(q, templates[1..]);
      SweepTemplatesAppends(q, templates[1..]);
      assert r.dest[..|p.dest|] == r.dest[..|q.dest|][..|p.dest|];
    }
  }

  lemma {:induction false} SweepEntitiesConserves(p: Pool, extracted: seq<K8sEntity>)
    ensures var r := SweepEntities(p, extracted).pool;
      multiset(r.dest) + multiset(r.rest) == multiset(p.dest) + multiset(p.rest)
    decreases |extracted|
  {
    if extracted != [] && ExtractPodTemplateSpec(extracted[0]).Ok? {
      var q := SweepTemplates(p, ExtractPodTemplateSpec(extracted[0]).value);
      SweepTemplatesConserves(p, ExtractPodTemplateSpec(extracted[0]).value);
      SweepEntitiesConserves(q, extracted[1..]);
    }
  }

  lemma {:induction false} SweepEntitiesAppends(p: Pool, extracted: seq<K8sEntity>)
    ensures var r := SweepEntities(p, extracted).pool;
      |p.dest| <= |r.dest| && r.dest[..|p.dest|] == p.dest
    decreases |extracted|
  {
    if extracted != [] && ExtractPodTemplateSpec(extracted[0]).Ok? {
      var q := SweepTemplates(p, ExtractPodTemplateSpec(extracted[0]).value);
      var r := SweepEntities(q, extracted[1..]).pool;
      SweepTemplatesAppends(p, ExtractPodTemplateSpec(extracted[0]).value);
      SweepEntitiesAppends(q, extracted[1..]);
      assert r.dest[..|p.dest|] == r.dest[..|q.dest|][..|p.dest|];
    }
  }

  lemma SweepTemplatesStep(p: Pool, templates: seq<Labels>, j: nat)
    requires j < |templates|
    ensures SweepTemplates(p, templates[j..]) == SweepTemplates(MoveByLabels(p, templates[j]), templates[j + 1..])
  {
    assert templates[j..][1..] == templates[j + 1..];
  }

  lemma SweepEntitiesStep(p: Pool, extracted: seq<K8sEntity>, i: nat)
    requires i < |extracted|
    ensures var templates := ExtractPodTemplateSpec(extracted[i]);
      SweepEntities(p, extracted[i..]) ==
        if templates.Fail? then Sweep(p, Some(templates.error))
        else SweepEntities(SweepTemplates(p, templates.value), extracted[i + 1..])
  {
    assert extracted[i..][1..] == extracted[i + 1..];
  }

  /**
   * extractImage from destination entities `dest` and unresourced entities
   * `u`: the image-carrying entities are moved first, then one label sweep per
   * pod template of those entities only.
   */
  function ExtractImageSpec(dest: seq<K8sEntity>, u: seq<K8sEntity>, image: ImageRef): (r: Sweep)
    ensures multiset(r.pool.dest) + multiset(r.pool.rest) == multiset(dest) + multiset(u)
    ensures |dest| <= |r.pool.dest| && r.pool.dest[..|dest|] == dest
  {
    match FilterByImage(u, image)
    case Fail(msg) => Sweep(Pool(dest, u), Some(msg))
    case Ok(s) =>
      var r := SweepEntities(Pool(dest + s.passing, s.rest), s.passing);
      FilterByImageConserves(u, image);
      SweepEntitiesConserves(Pool(dest + s.passing, s.rest), s.passing);
      SweepEntitiesAppends(Pool(dest + s.passing, s.rest), s.passing);
      assert r.pool.dest[..|dest|] == r.pool.dest[..|dest + s.passing|][..|dest|];
      r
  }

  // ---------------------------------------------------------------------------
  // assemble

  /** The assembler's mutable state as values: resources in order, unresourced entities. */
  datatype State = State(views: seq<ResourceView>, unresourced: seq<K8sEntity>)

  datatype Progress = Progress(st: State, err: Option<TiltError>)

  /** One iteration of the loop in assemble: choose the target, then extract into it. */
  function ProcessImage(st: State, image: ImageRef): (p: Progress)
    ensures |st.views| <= |p.st.views| <= |st.views| + 1
    ensures |p.st.unresourced| <= |st.unresourced|
  {
    match ExpandTarget(st.views, image)
    case Fail(e) => Progress(st, Some(e))
    case Ok(t) =>
      var d := t.views[t.index];
      var x := ExtractImageSpec(d.k8s, st.unresourced, image);
      var d' := d.(k8s := x.pool.dest, imageRef := if x.err.None? then image.name else d.imageRef);
      assert |x.pool.dest| + |x.pool.rest| == |d.k8s| + |st.unresourced| by {
        assert |multiset(x.pool.dest) + multiset(x.pool.rest)| == |multiset(d.k8s) + multiset(st.unresourced)|;
      }
      Progress(State(t.views[t.index := d'], x.pool.rest),
               if x.err.Some? then Some(K8sError(x.err.value)) else None)
  }

  /** The loop in assemble; it stops at the first error. */
  function ProcessImages(st: State, images: seq<ImageRef>): (p: Progress)
    ensures |st.views| <= |p.st.views| <= |st.views| + |images|
    ensures |p.st.unresourced| <= |st.unresourced|
    decreases |images|
  {
    if images == [] then Progress(st, None)
    else
      var p := ProcessImage(st, images[0]);
      if p.err.Some? then p else ProcessImages(p.st, images[1..])
  }

  lemma ProcessImagesStep(st: State, images: seq<ImageRef>, i: nat)
    requires i < |images|
    ensures ProcessImages(st, images[i..]) ==
      var p := ProcessImage(st, images[i]);
      if p.err.Some? then p else ProcessImages(p.st, images[i + 1..])
  {
    assert images[i..][1..] == images[i + 1..];
  }

  /** What assemble leaves behind: the state, the returned resources and the error. */
  datatype Assembled = Assembled(st: State, result: seq<ResourceView>, err: Option<TiltError>)

  /** assemble, including its deferred "unresourced" step. */
  function AssembleSpec(st: State, registered: map<string, DockerImage>): (a: Assembled)
    ensures |st.unresourced| == 0 ==> a == Assembled(st, st.views, None)
  {
    match UnresourcedImages(st.unresourced, registered)
    case Fail(e) => Assembled(st, [], Some(e))
    case Ok(images) =>
      var p := ProcessImages(st, images);
      if p.err.Some? then Assembled(p.st, [], p.err)
      else if |st.unresourced| == 0 then Assembled(p.st, p.st.views, None)
      else FillUnresourcedSpec(p.st)
  }

  /** The deferred step of assemble: a new "unresourced" resource holding the leftover entities. */
  function FillUnresourcedSpec(st: State): (a: Assembled)
    ensures a.result == a.st.views && a.st.unresourced == st.unresourced
  {
    match MakeResource(st.views, UnresourcedName)
    case Fail(e) => Assembled(st, st.views, Some(e))
    case Ok(vs) =>
      var last := |vs| - 1;
      var vs' := vs[last := vs[last].(k8s := st.unresourced)];
      Assembled(State(vs', st.unresourced), vs', None)
  }

  // ---------------------------------------------------------------------------
  // translate

  /** The manifest for one resource. */
  function ManifestFor(v: ResourceView, registered: map<string, DockerImage>): (r: Result<Manifest, TiltError>)
    ensures r.Ok? <==> SerializeYAML(v.k8s).Ok? && (v.imageRef != "" ==> v.imageRef in registered)
    ensures r.Ok? ==> && r.value.name == v.name && r.value.portForwards == v.portForwards
                      && Ok(r.value.k8sYaml) == SerializeYAML(v.k8s)
                      && (r.value.image.Some? <==> v.imageRef != "")
                      && (r.value.image.Some? ==> r.value.image.value == registered[v.imageRef])
    ensures SerializeYAML(v.k8s).Fail? ==> r == Fail(K8sError(SerializeYAML(v.k8s).error))
  {
    match SerializeYAML(v.k8s)
    case Fail(msg) => Fail(K8sError(msg))
    case Ok(yaml) =>
      if v.imageRef == "" then Ok(Manifest(v.name, yaml, v.portForwards, None))
      else if v.imageRef !in registered then Fail(NilImage(v.imageRef))
      else Ok(Manifest(v.name, yaml, v.portForwards, Some(registered[v.imageRef])))
  }

  /** translate: one manifest per resource, or the first resource's error. */
  function TranslateSpec(vs: seq<ResourceView>, registered: map<string, DockerImage>): (r: Result<seq<Manifest>, TiltError>)
    ensures r.Ok? ==> |r.value| == |vs|
  {
    if vs == [] then Ok([])
    else
      match ManifestFor(vs[0], registered)
      case Fail(e) => Fail(e)
      case Ok(m) => Prepend([m], TranslateSpec(vs[1..], registered))
  }

  /**
   * translate succeeds exactly when every resource serializes and names a
   * registered image (if any), and then yields one manifest per resource,
   * in order, with the build fields only where the resource has an image.
   */
  lemma {:induction false} TranslateSpecOk(vs: seq<ResourceView>, registered: map<string, DockerImage>)
    ensures TranslateSpec(vs, registered).Ok? <==> forall i :: 0 <= i < |vs| ==>
      SerializeYAML(vs[i].k8s).Ok? && (vs[i].imageRef != "" ==> vs[i].imageRef in registered)
    ensures TranslateSpec(vs, registered).Ok? ==> forall i :: 0 <= i < |vs| ==>
      var m := TranslateSpec(vs, registered).value[i];
      && m.name == vs[i].name
      && m.portForwards == vs[i].portForwards
      && SerializeYAML(vs[i].k8s) == Ok(m.k8sYaml)
      && m.image == (if vs[i].imageRef == "" then None else Some(registered[vs[i].imageRef]))
  {
    if vs != [] {
      TranslateSpecOk(vs[1..], registered);
      assert forall i :: 1 <= i < |vs| ==> vs[i] == vs[1..][i - 1];
    }
  }

  /** Stepping translate over one resource at a time. */
  lemma TranslateSpecStep(vs: seq<ResourceView>, registered: map<string, DockerImage>, i: nat)
    requires i < |vs|
    ensures var m := ManifestFor(vs[i], registered);
      TranslateSpec(vs[i..], registered) ==
        if m.Fail? then Fail(m.error) else Prepend([m.value], TranslateSpec(vs[i + 1..], registered))
  {
    assert vs[i..][1..] == vs[i + 1..];
  }
}
