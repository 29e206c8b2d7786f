/**
 * The imperative core of internal/tiltfile2/tiltfile_state.go: a
 * `tiltfileState` whose resources are `k8sResource` objects updated in place.
 * Every method is proved to follow the value-level function of module
 * Assembly for the same step, read off the state as ResourceView values.
 */
module Tiltfile {
  import opened Results
  import opened K8s
  import opened Assembly

  /** A `k8sResource`: a named group of cluster entities, possibly bound to an image. */
  class K8sResource {
    const name: string
    var k8s: seq<K8sEntity>
    var imageRef: string
    var portForwards: seq<PortForward>

    constructor (name: string)
      ensures this.name == name && k8s == [] && imageRef == "" && portForwards == []
    {
      this.name := name;
      k8s := [];
      imageRef := "";
      portForwards := [];
    }

    function View(): (v: ResourceView)
      reads this
      ensures v.name == name && v.k8s == k8s && v.imageRef == imageRef && v.portForwards == portForwards
    {
      ResourceView(name, k8s, imageRef, portForwards)
    }
  }

  /** The resources as values, in order. */
  function ViewsOf(rs: seq<K8sResource>): (vs: seq<ResourceView>)
    reads rs
    ensures |vs| == |rs|
  {
    if rs == [] then [] else [rs[0].View()] + ViewsOf(rs[1..])
  }

  lemma {:induction false} ViewsOfAt(rs: seq<K8sResource>)
    ensures forall i :: 0 <= i < |rs| ==> ViewsOf(rs)[i] == rs[i].View()
  {
    if rs != [] {
      ViewsOfAt(rs[1..]);
      assert forall i :: 1 <= i < |rs| ==> rs[i] == rs[1..][i - 1];
    }
  }

  /** The views of `rs` are `vs` when they agree resource by resource. */
  lemma ViewsOfPointwise(rs: seq<K8sResource>, vs: seq<ResourceView>)
    requires |rs| == |vs| && forall i :: 0 <= i < |rs| ==> rs[i].View() == vs[i]
    ensures ViewsOf(rs) == vs
  {
    ViewsOfAt(rs);
  }

  lemma UpdateLast<T>(a: seq<T>, y: T, x: T)
    ensures (a + [y])[|a| := x] == a + [x]
  {
  }

  /** Resource names are unique, and `byName` indexes exactly the resources by name. */
  ghost predicate Indexed(rs: seq<K8sResource>, byName: map<string, K8sResource>) {
    && (forall i, j :: 0 <= i < j < |rs| ==> rs[i].name != rs[j].name)
    && (forall i :: 0 <= i < |rs| ==> rs[i].name in byName && byName[rs[i].name] == rs[i])
    && (forall n :: n in byName ==> byName[n] in rs && byName[n].name == n)
  }

  lemma IndexedAppend(rs: seq<K8sResource>, byName: map<string, K8sResource>, r: K8sResource)
    requires Indexed(rs, byName) && r.name !in byName
    ensures Indexed(rs + [r], byName[r.name := r])
  {
    var rs' := rs + [r];
    forall i, j | 0 <= i < j < |rs'| ensures rs'[i].name != rs'[j].name {
      if j == |rs| {
        assert rs[i].name in byName;
      }
    }
    forall i | 0 <= i < |rs'| ensures rs'[i].name in byName[r.name := r] && byName[r.name := r][rs'[i].name] == rs'[i] {
      if i < |rs| {
        assert rs[i].name in byName;
      }
    }
  }

  /** A name is indexed exactly when some resource has it. */
  lemma IndexedNames(rs: seq<K8sResource>, byName: map<string, K8sResource>, name: string)
    requires Indexed(rs, byName)
    ensures name in byName <==> NameTaken(ViewsOf(rs), name)
  {
    var vs := ViewsOf(rs);
    ViewsOfAt(rs);
    if name in byName {
      var i :| 0 <= i < |rs| && rs[i] == byName[name];
      assert vs[i].name == name;
    }
    if NameTaken(vs, name) {
      var i :| 0 <= i < |vs| && vs[i].name == name;
      assert rs[i].name in byName;
    }
  }

  lemma {:induction false} ViewsOfAppend(rs: seq<K8sResource>, r: K8sResource)
    ensures ViewsOf(rs + [r]) == ViewsOf(rs) + [r.View()]
  {
    if rs != [] {
      assert (rs + [r])[1..] == rs[1..] + [r];
      ViewsOfAppend(rs[1..], r);
    }
  }

  /** The part of `tiltfileState` the assembler reads and writes. */
  class TiltfileState {
    var imagesByName: map<string, DockerImage>
    var k8s: seq<K8sResource>
    var k8sByName: map<string, K8sResource>
    var k8sUnresourced: seq<K8sEntity>

    ghost predicate Valid()
      reads this
    {
      Indexed(k8s, k8sByName)
    }

    constructor (imagesByName: map<string, DockerImage>, unresourced: seq<K8sEntity>)
      ensures Valid()
      ensures this.imagesByName == imagesByName && k8s == [] && k8sByName == map[] && k8sUnresourced == unresourced
    {
      this.imagesByName := imagesByName;
      k8s := [];
      k8sByName := map[];
      k8sUnresourced := unresourced;
    }

    /**
     * makeK8sResource, whose body is not part of this model: a taken name is
     * refused, otherwise a new empty resource is appended and indexed.
     */
    method MakeK8sResource(name: string) returns (r: K8sResource?, err: Option<TiltError>)
      requires Valid()
      modifies this`k8s, this`k8sByName
      ensures Valid()
      ensures NameTaken(old(ViewsOf(k8s)), name) ==>
        r == null && err == Some(DuplicateResource(name)) && k8s == old(k8s) && k8sByName == old(k8sByName)
      ensures !NameTaken(old(ViewsOf(k8s)), name) ==>
        && err.None? && r != null && fresh(r)
        && k8s == old(k8s) + [r] && k8sByName == old(k8sByName)[name := r]
        && ViewsOf(k8s) == old(ViewsOf(k8s)) + [ResourceView(name, [], "", [])]
    {
      IndexedNames(k8s, k8sByName, name);
      if name in k8sByName {
        return null, Some(DuplicateResource(name));
      }
      ghost var rs := k8s;
      ghost var vs := ViewsOf(k8s);
      ViewsOfAt(rs);
      r := new K8sResource(name);
      IndexedAppend(k8s, k8sByName, r);
      k8s := k8s + [r];
      k8sByName := k8sByName[name := r];
      err := None;
      forall i | 0 <= i < |rs| ensures rs[i].View() == vs[i] {
        assert rs[i].View() == old(rs[i].View());
      }
      ViewsOfPointwise(rs, vs);
      ViewsOfAppend(rs, r);
      assert r.View() == ResourceView(name, [], "", []);
    }

    /** findExpandTarget: the first empty resource bound to the image, else the first empty one named after it, else a new one. */
    method FindExpandTarget(image: ImageRef) returns (r: K8sResource?, err: Option<TiltError>)
      requires Valid()
      modifies this`k8s, this`k8sByName
      ensures Valid()
      ensures k8s == old(k8s) || (r != null && fresh(r) && k8s == old(k8s) + [r])
      ensures var t := ExpandTarget(old(ViewsOf(k8s)), image);
        && (t.Fail? ==> err == Some(t.error) && k8s == old(k8s))
        && (t.Ok? ==> err.None? && ViewsOf(k8s) == t.value.views && t.value.index < |k8s| && r == k8s[t.value.index])
    {
      ghost var vs := ViewsOf(k8s);
      var exact := FindAwaiting(ByImageRef(image.name));
      if exact.Some? {
        return k8s[exact.value], None;
      }
      var name := Base(image.name);
      var named := FindAwaiting(ByName(name));
      if named.Some? {
        assert FirstAwaiting(vs, ByImageRef(image.name)) == None;
        assert FirstAwaiting(vs, ByName(Base(image.name))) == Some(named.value);
        assert ExpandTarget(vs, image) == Ok(Target(vs, named.value));
        return k8s[named.value], None;
      }
      assert ExpandTarget(vs, image) == match MakeResource(vs, name)
        case Fail(e) => Fail(e)
        case Ok(vs') => Ok(Target(vs', |vs|));
      r, err := MakeK8sResource(name);
    }

    /** One scan of findExpandTarget: the first resource, in order, that satisfies `c`. */
    method FindAwaiting(c: Criterion) returns (found: Option<nat>)
      ensures found == FirstAwaiting(ViewsOf(k8s), c)
    {
      ghost var vs := ViewsOf(k8s);
      ViewsOfAt(k8s);
      for i := 0 to |k8s|
        invariant forall j :: 0 <= j < i ==> !Awaits(vs[j], c)
      {
        var r := k8s[i];
        if |r.k8s| == 0 && (match c case ByImageRef(n) => r.imageRef == n case ByName(n) => r.name == n) {
          FirstAwaitingAt(vs, c, i);
          return Some(i);
        }
      }
      return None;
    }

    /** findUnresourcedImages: the registered image of every unresourced entity that has one, in order. */
    method FindUnresourcedImages() returns (r: Result<seq<ImageRef>, TiltError>)
      ensures r == UnresourcedImages(k8sUnresourced, imagesByName)
    {
      var u, registered := k8sUnresourced, imagesByName;
      var result: seq<ImageRef> := [];
      PrependNothing(result, UnresourcedImages(u, registered));
      for i := 0 to |u|
        invariant UnresourcedImages(u, registered) == Prepend(result, UnresourcedImages(u[i..], registered))
      {
        var e := u[i];
        UnresourcedImagesStep(u, registered, i);
        var images := FindImages(e);
        if images.Fail? {
          return Fail(K8sError(images.error));
        }
        var entityImages := RegisteredOf(images.value);
        if |entityImages| == 0 {
          continue;
        }
        if |entityImages| > 1 {
          var str := EntityText(e);
          return Fail(MultipleImages(entityImages, str));
        }
        PrependAssoc(result, [entityImages[0]], UnresourcedImages(u[i + 1..], registered));
        result := result + [entityImages[0]];
      }
      assert u[|u|..] == [];
      PrependNothing(result, UnresourcedImages(u, registered));
      r := Ok(result);
    }

    /** The inner loop of findUnresourcedImages: the references among `images` that name a registered image. */
    method RegisteredOf(images: seq<ImageRef>) returns (refs: seq<ImageRef>)
      ensures refs == RegisteredRefs(images, imagesByName)
    {
      refs := [];
      for j := 0 to |images|
        invariant refs + RegisteredRefs(images[j..], imagesByName) == RegisteredRefs(images, imagesByName)
      {
        RegisteredRefsStep(images, imagesByName, refs, j);
        if images[j].name in imagesByName {
          refs := refs + [images[j]];
        }
      }
      assert images[|images|..] == [];
      assert refs + [] == refs;
    }

    /** extractImage: moves the entities carrying the image, then one label sweep per pod template of those. */
    method ExtractImage(dest: K8sResource, image: ImageRef) returns (err: Option<TiltError>)
      modifies this`k8sUnresourced, dest`k8s, dest`imageRef
      ensures var x := ExtractImageSpec(old(dest.k8s), old(k8sUnresourced), image);
        && dest.k8s == x.pool.dest && k8sUnresourced == x.pool.rest
        && dest.imageRef == (if x.err.None? then image.name else old(dest.imageRef))
        && err == (if x.err.Some? then Some(K8sError(x.err.value)) else None)
    {
      var f := FilterByImage(k8sUnresourced, image);
      if f.Fail? {
        return Some(K8sError(f.error));
      }
      var extracted := f.value.passing;
      ghost var start := Pool(dest.k8s + extracted, f.value.rest);
      dest.k8s := dest.k8s + extracted;
      k8sUnresourced := f.value.rest;
      for i := 0 to |extracted|
        invariant dest.imageRef == old(dest.imageRef)
        invariant SweepEntities(Pool(dest.k8s, k8sUnresourced), extracted[i..]) == SweepEntities(start, extracted)
      {
        SweepEntitiesStep(Pool(dest.k8s, k8sUnresourced), extracted, i);
        var podTemplates := ExtractPodTemplateSpec(extracted[i]);
        if podTemplates.Fail? {
          return Some(K8sError(podTemplates.error));
        }
        SweepInto(dest, podTemplates.value);
      }
      assert extracted[|extracted|..] == [];
      dest.imageRef := image.name;
      err := None;
    }

    /** The inner loop of extractImage: one label sweep of the unresourced entities per pod template. */
    method SweepInto(dest: K8sResource, templates: seq<Labels>)
      modifies this`k8sUnresourced, dest`k8s
      ensures Pool(dest.k8s, k8sUnresourced) == SweepTemplates(old(Pool(dest.k8s, k8sUnresourced)), templates)
    {
      ghost var before := Pool(dest.k8s, k8sUnresourced);
      for j := 0 to |templates|
        invariant SweepTemplates(Pool(dest.k8s, k8sUnresourced), templates[j..]) == SweepTemplates(before, templates)
      {
        SweepTemplatesStep(Pool(dest.k8s, k8sUnresourced), templates, j);
        var s := FilterByLabels(k8sUnresourced, templates[j]);
        dest.k8s := dest.k8s + s.passing;
        k8sUnresourced := s.rest;
      }
      assert templates[|templates|..] == [];
    }

    /**
     * assemble: claims an image per unresourced entity, extracts each into its
     * target resource, and, when there were unresourced entities at the start
     * and nothing failed, puts the leftovers into a new "unresourced" resource.
     */
    method Assemble() returns (result: seq<K8sResource>, err: Option<TiltError>)
      requires Valid()
      modifies this`k8s, this`k8sByName, this`k8sUnresourced, k8s
      ensures Valid()
      ensures var a := AssembleSpec(State(old(ViewsOf(k8s)), old(k8sUnresourced)), old(imagesByName));
        && State(ViewsOf(k8s), k8sUnresourced) == a.st
        && ViewsOf(result) == a.result
        && err == a.err
      ensures result == [] || result == k8s
    {
      ghost var st0 := State(ViewsOf(k8s), k8sUnresourced);
      var deferred := |k8sUnresourced| > 0;
      err := None;
      var images := FindUnresourcedImages();
      if images.Fail? {
        return [], Some(images.error);
      }
      ghost var p := ProcessImages(st0, images.value);
      assert AssembleSpec(st0, imagesByName) ==
        if p.err.Some? then Assembled(p.st, [], p.err)
        else if deferred then FillUnresourcedSpec(p.st)
        else Assembled(p.st, p.st.views, None);
      err := AssembleImages(images.value);
      if err.Some? {
        return [], err;
      }
      result := k8s;
      if deferred {
        err := FillUnresourced();
        result := k8s;
      }
    }

    /** The loop in assemble: each image in turn, stopping at the first error. */
    method AssembleImages(images: seq<ImageRef>) returns (err: Option<TiltError>)
      requires Valid()
      modifies this`k8s, this`k8sByName, this`k8sUnresourced, k8s
      ensures Valid()
      ensures forall o :: o in k8s ==> o in old(k8s) || fresh(o)
      ensures var p := ProcessImages(State(old(ViewsOf(k8s)), old(k8sUnresourced)), images);
        State(ViewsOf(k8s), k8sUnresourced) == p.st && err == p.err
    {
      ghost var p := ProcessImages(State(ViewsOf(k8s), k8sUnresourced), images);
      for i := 0 to |images|
        invariant Valid()
        invariant forall o :: o in k8s ==> o in old(k8s) || fresh(o)
        invariant p == ProcessImages(State(ViewsOf(k8s), k8sUnresourced), images[i..])
      {
        ProcessImagesStep(State(ViewsOf(k8s), k8sUnresourced), images, i);
        err := AssembleImage(images[i]);
        if err.Some? {
          return;
        }
      }
      assert images[|images|..] == [];
      err := None;
    }

    /** One iteration of the loop in assemble: find the target of `image`, then extract into it. */
    method AssembleImage(image: ImageRef) returns (err: Option<TiltError>)
      requires Valid()
      modifies this`k8s, this`k8sByName, this`k8sUnresourced, k8s
      ensures Valid()
      ensures forall o :: o in k8s ==> o in old(k8s) || fresh(o)
      ensures var p := ProcessImage(State(old(ViewsOf(k8s)), old(k8sUnresourced)), image);
        State(ViewsOf(k8s), k8sUnresourced) == p.st && err == p.err
    {
      ghost var st := State(ViewsOf(k8s), k8sUnresourced);
      var target, e := FindExpandTarget(image);
      if e.Some? {
        assert k8s == old(k8s);
        assert ProcessImage(st, image) == Progress(st, e);
        return e;
      }
      ghost var t := ExpandTarget(st.views, image).value;
      err := ExtractAt(target, t.index, image);
    }

    /** extractImage into the resource at `index`, seen through the resources as values. */
    method ExtractAt(target: K8sResource, ghost index: nat, image: ImageRef) returns (err: Option<TiltError>)
      requires Valid() && index < |k8s| && target == k8s[index]
      modifies this`k8sUnresourced, target
      ensures var d := old(ViewsOf(k8s))[index];
        var x := ExtractImageSpec(d.k8s, old(k8sUnresourced), image);
        && ViewsOf(k8s) == old(ViewsOf(k8s))[index := d.(k8s := x.pool.dest, imageRef := if x.err.None? then image.name else d.imageRef)]
        && k8sUnresourced == x.pool.rest
        && err == (if x.err.Some? then Some(K8sError(x.err.value)) else None)
    {
      ghost var vs := ViewsOf(k8s);
      ViewsOfAt(k8s);
      ghost var d := vs[index];
      ghost var x := ExtractImageSpec(d.k8s, k8sUnresourced, image);
      label BeforeExtract:
      err := ExtractImage(target, image);
      ghost var d' := d.(k8s := x.pool.dest, imageRef := if x.err.None? then image.name else d.imageRef);
      forall j | 0 <= j < |k8s|
        ensures k8s[j].View() == vs[index := d'][j]
      {
        if j != index {
          assert k8s[j].name != target.name;
          assert old@BeforeExtract(k8s[j].View()) == vs[j];
        }
      }
      ViewsOfPointwise(k8s, vs[index := d']);
    }

    /** The deferred step of assemble: a new "unresourced" resource holding the leftover entities. */
    method FillUnresourced() returns (err: Option<TiltError>)
      requires Valid()
      modifies this`k8s, this`k8sByName, k8s
      ensures Valid()
      ensures var a := FillUnresourcedSpec(State(old(ViewsOf(k8s)), k8sUnresourced));
        State(ViewsOf(k8s), k8sUnresourced) == a.st && err == a.err
    {
      var r;
      r, err := MakeK8sResource(UnresourcedName);
      if err.Some? {
        return;
      }
      ghost var vs := ViewsOf(k8s);
      ghost var before := old(k8s);
      assert k8s == before + [r];
      ViewsOfAppend(before, r);
      ghost var kept := ViewsOf(before);
      assert kept == old(ViewsOf(k8s));
      assert r !in before;
      r.k8s := k8sUnresourced;
      assert ViewsOf(before) == kept;
      ViewsOfAppend(before, r);
      assert MakeResource(old(ViewsOf(k8s)), UnresourcedName) == Ok(vs);
      UpdateLast(kept, vs[|vs| - 1], r.View());
    }

    /** translate: one manifest per resource, in order; the first failure aborts. */
    method Translate(resources: seq<K8sResource>) returns (r: Result<seq<Manifest>, TiltError>)
      ensures r == TranslateSpec(ViewsOf(resources), imagesByName)
    {
      ghost var vs := ViewsOf(resources);
      ViewsOfAt(resources);
      var result: seq<Manifest> := [];
      PrependNothing(result, TranslateSpec(vs, imagesByName));
      for i := 0 to |resources|
        invariant TranslateSpec(vs, imagesByName) == Prepend(result, TranslateSpec(vs[i..], imagesByName))
      {
        var res := resources[i];
        TranslateSpecStep(vs, imagesByName, i);
        var k8sYaml := SerializeYAML(res.k8s);
        if k8sYaml.Fail? {
          return Fail(K8sError(k8sYaml.error));
        }
        var m := Manifest(res.name, k8sYaml.value, res.portForwards, None);
        if res.imageRef != "" {
          if res.imageRef !in imagesByName {
            return Fail(NilImage(res.imageRef));
          }
          m := m.(image := Some(imagesByName[res.imageRef]));
        }
        PrependAssoc(result, [m], TranslateSpec(vs[i + 1..], imagesByName));
        result := result + [m];
      }
      assert vs[|resources|..] == [];
      PrependNothing(result, TranslateSpec(vs, imagesByName));
      r := Ok(result);
    }
  }
}
