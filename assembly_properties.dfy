/**
 * What the assembler's steps guarantee: conservation of entities, the single
 * label sweep of extractImage, the catch-all "unresourced" resource, the
 * ambiguity error, and two concrete runs showing that images are not
 * de-duplicated and that the label sweep is a single pass.
 */
module AssemblyProperties {
  import opened Results
  import opened K8s
  import opened Assembly

  // ---------------------------------------------------------------------------
  // Which unresourced entities a sweep leaves behind

  predicate MatchesAny(e: K8sEntity, selectors: seq<Labels>) {
    exists j :: 0 <= j < |selectors| && MatchesLabels(e, selectors[j])
  }

  /** Taken by extractImage for `name` once `selectors` have been swept. */
  predicate Claimed(e: K8sEntity, name: string, selectors: seq<Labels>) {
    CarriesImage(e, name) || MatchesAny(e, selectors)
  }

  /** The entities of `es`, in order, that are not claimed. */
  function Unclaimed(es: seq<K8sEntity>, name: string, selectors: seq<Labels>): (r: seq<K8sEntity>)
    ensures forall e :: e in r ==> e in es && !Claimed(e, name, selectors)
  {
    if es == [] then []
    else (if Claimed(es[0], name, selectors) then [] else [es[0]]) + Unclaimed(es[1..], name, selectors)
  }

  /** The pod-template selectors of the given entities, entity by entity. */
  function AllTemplates(es: seq<K8sEntity>): seq<Labels> {
    if es == [] then []
    else (if es[0].podTemplates.Ok? then es[0].podTemplates.value else []) + AllTemplates(es[1..])
  }

  lemma MatchesAnyConcat(e: K8sEntity, a: seq<Labels>, b: seq<Labels>)
    ensures MatchesAny(e, a + b) <==> MatchesAny(e, a) || MatchesAny(e, b)
  {
    if MatchesAny(e, a + b) {
      var j :| 0 <= j < |a + b| && MatchesLabels(e, (a + b)[j]);
      if j >= |a| { assert (a + b)[j] == b[j - |a|]; }
    }
    if MatchesAny(e, a) {
      var j :| 0 <= j < |a| && MatchesLabels(e, a[j]);
      assert (a + b)[j] == a[j];
    }
    if MatchesAny(e, b) {
      var j :| 0 <= j < |b| && MatchesLabels(e, b[j]);
      assert (a + b)[|a| + j] == b[j];
    }
  }

  lemma MatchesAnySnoc(e: K8sEntity, sels: seq<Labels>, t: Labels)
    ensures MatchesAny(e, sels + [t]) <==> MatchesAny(e, sels) || MatchesLabels(e, t)
  {
    if MatchesAny(e, sels) {
      var j :| 0 <= j < |sels| && MatchesLabels(e, sels[j]);
      assert (sels + [t])[j] == sels[j];
    }
    if MatchesLabels(e, t) {
      assert (sels + [t])[|sels|] == t;
    }
  }

  lemma MatchesAnyHead(e: K8sEntity, ts: seq<Labels>)
    requires ts != [] && MatchesLabels(e, ts[0])
    ensures MatchesAny(e, ts)
  {
  }

  lemma MatchesAnyTail(e: K8sEntity, ts: seq<Labels>)
    requires ts != [] && MatchesAny(e, ts[1..])
    ensures MatchesAny(e, ts)
  {
    var j :| 0 <= j < |ts[1..]| && MatchesLabels(e, ts[1..][j]);
    assert ts[j + 1] == ts[1..][j];
  }

  lemma {:induction false} FilterByImageRest(es: seq<K8sEntity>, image: ImageRef)
    requires FilterByImage(es, image).Ok?
    ensures FilterByImage(es, image).value.rest == Unclaimed(es, image.name, [])
  {
    if es != [] {
      FilterByImageRest(es[1..], image);
      assert !MatchesAny(es[0], []);
    }
  }

  lemma {:induction false} FilterByLabelsUnclaimed(es: seq<K8sEntity>, name: string, sels: seq<Labels>, t: Labels)
    ensures FilterByLabels(Unclaimed(es, name, sels), t).rest == Unclaimed(es, name, sels + [t])
  {
    if es != [] {
      var e := es[0];
      var tail := Unclaimed(es[1..], name, sels);
      FilterByLabelsUnclaimed(es[1..], name, sels, t);
      MatchesAnySnoc(e, sels, t);
      if Claimed(e, name, sels) {
        assert Claimed(e, name, sels + [t]);
        assert Unclaimed(es, name, sels) == tail;
      } else {
        assert Unclaimed(es, name, sels) == [e] + tail;
        assert ([e] + tail)[1..] == tail;
        if MatchesLabels(e, t) {
          assert Unclaimed(es, name, sels + [t]) == Unclaimed(es[1..], name, sels + [t]);
        } else {
          assert Unclaimed(es, name, sels + [t]) == [e] + Unclaimed(es[1..], name, sels + [t]);
        }
      }
    }
  }

  lemma {:induction false} SweepTemplatesRest(p: Pool, ts: seq<Labels>, es: seq<K8sEntity>, name: string, sels: seq<Labels>)
    requires p.rest == Unclaimed(es, name, sels)
    ensures SweepTemplates(p, ts).rest == Unclaimed(es, name, sels + ts)
    decreases |ts|
  {
    if ts == [] {
      assert sels + ts == sels;
    } else {
      FilterByLabelsUnclaimed(es, name, sels, ts[0]);
      SweepTemplatesRest(MoveByLabels(p, ts[0]), ts[1..], es, name, sels + [ts[0]]);
      assert sels + [ts[0]] + ts[1..] == sels + ts;
    }
  }

  lemma {:induction false} SweepEntitiesRest(p: Pool, ext: seq<K8sEntity>, es: seq<K8sEntity>, name: string, sels: seq<Labels>)
    requires p.rest == Unclaimed(es, name, sels)
    requires SweepEntities(p, ext).err.None?
    ensures SweepEntities(p, ext).pool.rest == Unclaimed(es, name, sels + AllTemplates(ext))
    decreases |ext|
  {
    if ext == [] {
      assert sels + AllTemplates(ext) == sels;
    } else {
      assert ext[0].podTemplates.Ok?;
      var ts := ext[0].podTemplates.value;
      var q := SweepTemplates(p, ts);
      assert SweepEntities(p, ext) == SweepEntities(q, ext[1..]);
      assert AllTemplates(ext) == ts + AllTemplates(ext[1..]);
      SweepTemplatesRest(p, ts, es, name, sels);
      SweepEntitiesRest(q, ext[1..], es, name, sels + ts);
      assert sels + ts + AllTemplates(ext[1..]) == sels + AllTemplates(ext);
    }
  }

  lemma SplitMembers(es: seq<K8sEntity>, s: Split)
    requires multiset(s.passing) + multiset(s.rest) == multiset(es)
    ensures forall e :: e in s.passing ==> e in es
    ensures forall e :: e in s.rest ==> e in es
  {
    forall e | e in s.passing ensures e in es {
      assert multiset(s.passing)[e] > 0;
      assert (multiset(s.passing) + multiset(s.rest))[e] > 0;
    }
    forall e | e in s.rest ensures e in es {
      assert multiset(s.rest)[e] > 0;
      assert (multiset(s.passing) + multiset(s.rest))[e] > 0;
    }
  }

  /** What grows a prefix `p` into `r`: first `x`, making `q`, then the rest of `r`. */
  lemma SuffixSplit<T>(r: seq<T>, q: seq<T>, p: seq<T>, x: seq<T>)
    requires q == p + x
    requires |q| <= |r| && r[..|q|] == q
    ensures r[|p|..] == x + r[|q|..]
  {
    assert r == q + r[|q|..];
  }

  /** A sweep only removes entities from the remaining ones. */
  lemma {:induction false} SweepTemplatesKeeps(p: Pool, ts: seq<Labels>)
    ensures forall e :: e in SweepTemplates(p, ts).rest ==> e in p.rest
    decreases |ts|
  {
    if ts != [] {
      var s := FilterByLabels(p.rest, ts[0]);
      var q := Pool(p.dest + s.passing, s.rest);
      assert q == MoveByLabels(p, ts[0]);
      FilterByLabelsConserves(p.rest, ts[0]);
      SplitMembers(p.rest, s);
      SweepTemplatesKeeps(q, ts[1..]);
    }
  }

  /** An entity a sweep appends comes from the remaining ones and matches one of the templates. */
  lemma {:induction false} SweepTemplatesAdds(p: Pool, ts: seq<Labels>, e: K8sEntity)
    ensures var r := SweepTemplates(p, ts);
      |p.dest| <= |r.dest| && (e in r.dest[|p.dest|..] ==> e in p.rest && MatchesAny(e, ts))
    decreases |ts|
  {
    SweepTemplatesAppends(p, ts);
    if ts != [] && e in SweepTemplates(p, ts).dest[|p.dest|..] {
      var s := FilterByLabels(p.rest, ts[0]);
      var q := Pool(p.dest + s.passing, s.rest);
      assert q == MoveByLabels(p, ts[0]);
      var r := SweepTemplates(q, ts[1..]);
      SweepTemplatesAppends(q, ts[1..]);
      SuffixSplit(r.dest, q.dest, p.dest, s.passing);
      FilterByLabelsConserves(p.rest, ts[0]);
      SplitMembers(p.rest, s);
      if e in s.passing {
        FilterByLabelsSplits(p.rest, ts[0]);
        MatchesAnyHead(e, ts);
      } else {
        assert e in r.dest[|q.dest|..];
        SweepTemplatesAdds(q, ts[1..], e);
        MatchesAnyTail(e, ts);
      }
    }
  }

  lemma {:induction false} SweepEntitiesKeeps(p: Pool, ext: seq<K8sEntity>)
    ensures forall e :: e in SweepEntities(p, ext).pool.rest ==> e in p.rest
    decreases |ext|
  {
    if ext != [] && ext[0].podTemplates.Ok? {
      var q := SweepTemplates(p, ext[0].podTemplates.value);
      SweepTemplatesKeeps(p, ext[0].podTemplates.value);
      SweepEntitiesKeeps(q, ext[1..]);
    }
  }

  lemma {:induction false} SweepEntitiesAdds(p: Pool, ext: seq<K8sEntity>, e: K8sEntity)
    requires SweepEntities(p, ext).err.None?
    ensures var r := SweepEntities(p, ext).pool;
      |p.dest| <= |r.dest| && (e in r.dest[|p.dest|..] ==> e in p.rest && MatchesAny(e, AllTemplates(ext)))
    decreases |ext|
  {
    SweepEntitiesAppends(p, ext);
    if ext != [] && e in SweepEntities(p, ext).pool.dest[|p.dest|..] {
      assert ext[0].podTemplates.Ok?;
      var ts := ext[0].podTemplates.value;
      var q := SweepTemplates(p, ts);
      var r := SweepEntities(q, ext[1..]).pool;
      assert r == SweepEntities(p, ext).pool;
      assert AllTemplates(ext) == ts + AllTemplates(ext[1..]);
      SweepTemplatesAppends(p, ts);
      SweepEntitiesAppends(q, ext[1..]);
      SuffixSplit(r.dest, q.dest, p.dest, q.dest[|p.dest|..]);
      MatchesAnyConcat(e, ts, AllTemplates(ext[1..]));
      if e in q.dest[|p.dest|..] {
        SweepTemplatesAdds(p, ts, e);
      } else {
        assert e in r.dest[|q.dest|..];
        SweepEntitiesAdds(q, ext[1..], e);
        SweepTemplatesKeeps(p, ts);
      }
    }
  }

  /**
   * extractImage, when it succeeds: the destination gains first every
   * unresourced entity that carries the image, in order, then entities that
   * do not carry it but match a pod template of those image-carrying entities;
   * what stays unresourced is, in its original order, exactly the entities
   * that neither carry the image nor match one of those templates. Templates
   * of label-matched entities are never consulted: the sweep is one pass.
   */
  lemma ExtractImageSinglePass(dest: seq<K8sEntity>, u: seq<K8sEntity>, image: ImageRef)
    requires ExtractImageSpec(dest, u, image).err.None?
    ensures FilterByImage(u, image).Ok?
    ensures var ext := FilterByImage(u, image).value.passing;
      var r := ExtractImageSpec(dest, u, image).pool;
      && |dest| + |ext| <= |r.dest|
      && r.dest[..|dest| + |ext|] == dest + ext
      && (forall e :: e in r.dest[|dest| + |ext|..] ==> !CarriesImage(e, image.name) && MatchesAny(e, AllTemplates(ext)))
      && r.rest == Unclaimed(u, image.name, AllTemplates(ext))
  {
    var s := FilterByImage(u, image).value;
    SweepSinglePass(dest, u, image, s);
  }

  lemma SweepSinglePass(dest: seq<K8sEntity>, u: seq<K8sEntity>, image: ImageRef, s: Split)
    requires FilterByImage(u, image) == Ok(s)
    requires SweepEntities(Pool(dest + s.passing, s.rest), s.passing).err.None?
    ensures var r := SweepEntities(Pool(dest + s.passing, s.rest), s.passing).pool;
      && |dest| + |s.passing| <= |r.dest|
      && r.dest[..|dest| + |s.passing|] == dest + s.passing
      && (forall e :: e in r.dest[|dest| + |s.passing|..] ==> !CarriesImage(e, image.name) && MatchesAny(e, AllTemplates(s.passing)))
      && r.rest == Unclaimed(u, image.name, AllTemplates(s.passing))
  {
    var p := Pool(dest + s.passing, s.rest);
    FilterByImageSplits(u, image);
    FilterByImageRest(u, image);
    SweepEntitiesRest(p, s.passing, u, image.name, []);
    assert [] + AllTemplates(s.passing) == AllTemplates(s.passing);
    SweepEntitiesAppends(p, s.passing);
    var r := SweepEntities(p, s.passing).pool;
    assert |p.dest| == |dest| + |s.passing|;
    assert r.rest == Unclaimed(u, image.name, AllTemplates(s.passing));
    assert r.dest[..|dest| + |s.passing|] == dest + s.passing;
    forall e | e in r.dest[|dest| + |s.passing|..]
      ensures !CarriesImage(e, image.name) && MatchesAny(e, AllTemplates(s.passing))
    {
      SweepEntitiesAdds(p, s.passing, e);
      assert e in s.rest;
    }
  }

  /**
   * The label sweep is not transitive: a service matched through a
   * deployment's pod template is moved, but a third entity that matches only
   * the service's own pod template stays unresourced.
   */
  lemma LabelSweepIsSinglePass(app: ImageRef, sel: Labels, deployment: K8sEntity, service: K8sEntity, db: K8sEntity)
    requires deployment.images == Ok([app]) && service.images == Ok([]) && db.images == Ok([])
    requires deployment.podTemplates == Ok([sel])
    requires MatchesLabels(service, sel) && !MatchesLabels(db, sel)
    requires service.podTemplates.Ok? && MatchesAny(db, service.podTemplates.value)
    ensures ExtractImageSpec([], [deployment, service, db], app) == Sweep(Pool([deployment, service], [db]), None)
  {
    OnlyFirstCarries(app, deployment, service, db);
    OnlyFirstMatches(sel, service, db);
    SweepSkipsMatchedTemplates(sel, deployment, service, db);
    assert [] + [deployment] == [deployment];
    ExtractBySweep([], [deployment, service, db], app, Split([deployment], [service, db]));
  }

  /** The situation above occurs: a deployment, the service it selects, and a database only the service selects. */
  lemma LabelSweepExample()
    ensures var app := ImageRef("app", "");
      var sel := map["app" := "web"];
      var deployment := K8sEntity(Some("kind: Deployment"), Ok([app]), map[], Ok([sel]));
      var service := K8sEntity(Some("kind: Service"), Ok([]), sel, Ok([map["tier" := "db"]]));
      var db := K8sEntity(Some("kind: StatefulSet"), Ok([]), map["tier" := "db"], Ok([]));
      && MatchesLabels(service, sel) && !MatchesLabels(db, sel)
      && MatchesAny(db, service.podTemplates.value)
  {
    var db := K8sEntity(Some("kind: StatefulSet"), Ok([]), map["tier" := "db"], Ok([]));
    assert "app" !in db.labels;
    assert MatchesLabels(db, [map["tier" := "db"]][0]);
  }

  /**
   * Only the pod templates of image-carrying entities are swept: `b` is moved
   * through `a`'s template, and `c` stays whatever `b`'s own templates select.
   */
  lemma SweepSkipsMatchedTemplates(sel: Labels, a: K8sEntity, b: K8sEntity, c: K8sEntity)
    requires a.podTemplates == Ok([sel])
    requires FilterByLabels([b, c], sel) == Split([b], [c])
    ensures SweepEntities(Pool([a], [b, c]), [a]) == Sweep(Pool([a, b], [c]), None)
  {
    var p := Pool([a], [b, c]);
    var q := Pool([a, b], [c]);
    assert MoveByLabels(p, sel) == q by {
      assert [a] + [b] == [a, b];
    }
    assert SweepTemplates(p, [sel]) == q by {
      assert [sel][1..] == [];
      assert SweepTemplates(q, []) == q;
    }
    assert SweepEntities(p, [a]) == SweepEntities(q, []) by {
      assert [a][1..] == [];
    }
  }

  /** extractImage once the image filter has succeeded. */
  lemma ExtractBySweep(dest: seq<K8sEntity>, u: seq<K8sEntity>, image: ImageRef, s: Split)
    requires FilterByImage(u, image) == Ok(s)
    ensures ExtractImageSpec(dest, u, image) == SweepEntities(Pool(dest + s.passing, s.rest), s.passing)
  {
  }

  lemma OnlyFirstCarries(app: ImageRef, a: K8sEntity, b: K8sEntity, c: K8sEntity)
    requires a.images == Ok([app]) && b.images == Ok([]) && c.images == Ok([])
    ensures FilterByImage([a, b, c], app) == Ok(Split([a], [b, c]))
  {
    assert RefersTo([app], app.name) by { assert [app][0].name == app.name; }
    assert [a, b, c][1..] == [b, c] && [b, c][1..] == [c] && [c][1..] == [];
    assert FilterByImage([], app) == Ok(Split([], []));
    assert !RefersTo([], app.name);
    assert [c] + [] == [c] && [b] + [c] == [b, c];
    assert FilterByImage([c], app) == Ok(Split([], [c]));
    assert FilterByImage([b, c], app) == Ok(Split([], [b, c]));
    assert [a] + [] == [a];
  }

  lemma OnlyFirstMatches(sel: Labels, a: K8sEntity, b: K8sEntity)
    requires MatchesLabels(a, sel) && !MatchesLabels(b, sel)
    ensures FilterByLabels([a, b], sel) == Split([a], [b])
  {
    assert [a, b][1..] == [b] && [b][1..] == [];
    assert FilterByLabels([], sel) == Split([], []);
    assert FilterByLabels([b], sel) == Split([], [b]);
    assert [a] + [] == [a] && [b] + [] == [b];
  }

  // ---------------------------------------------------------------------------
  // Conservation across assemble

  /** The entities held by the resources, with repetition. */
  function Placed(vs: seq<ResourceView>): multiset<K8sEntity> {
    if vs == [] then multiset{} else multiset(vs[0].k8s) + Placed(vs[1..])
  }

  lemma {:induction false} PlacedAppend(vs: seq<ResourceView>, v: ResourceView)
    ensures Placed(vs + [v]) == Placed(vs) + multiset(v.k8s)
  {
    if vs != [] {
      assert (vs + [v])[1..] == vs[1..] + [v];
      PlacedAppend(vs[1..], v);
    }
  }

  lemma {:induction false} PlacedUpdate(vs: seq<ResourceView>, i: nat, v: ResourceView)
    requires i < |vs|
    ensures Placed(vs[i := v]) + multiset(vs[i].k8s) == Placed(vs) + multiset(v.k8s)
  {
    var ws := vs[i := v];
    var a := Placed(ws[1..]);
    var b := Placed(vs[1..]);
    assert Placed(ws) == multiset(ws[0].k8s) + a;
    assert Placed(vs) == multiset(vs[0].k8s) + b;
    if i == 0 {
      assert ws[1..] == vs[1..];
    } else {
      assert ws[1..] == vs[1..][i - 1 := v];
      assert vs[1..][i - 1] == vs[i];
      PlacedUpdate(vs[1..], i - 1, v);
      assert a + multiset(vs[i].k8s) == b + multiset(v.k8s);
      assert ws[0] == vs[0];
    }
    forall e ensures (Placed(ws) + multiset(vs[i].k8s))[e] == (Placed(vs) + multiset(v.k8s))[e] {
      if i > 0 {
        assert (a + multiset(vs[i].k8s))[e] == (b + multiset(v.k8s))[e];
      }
    }
  }

  /** Pointwise cancellation of multiset sums. */
  lemma Cancel<X>(a: multiset<X>, b: multiset<X>, c: multiset<X>, d: multiset<X>, r: multiset<X>, u: multiset<X>)
    requires a + b == c + d
    requires d + r == b + u
    ensures a + r == c + u
  {
    assert forall e :: (a + r)[e] == (c + u)[e] by {
      forall e ensures (a + r)[e] == (c + u)[e] {
        assert (a + b)[e] == (c + d)[e];
        assert (d + r)[e] == (b + u)[e];
      }
    }
  }

  /** The resources findExpandTarget works on are the old ones, possibly with one empty resource added. */
  lemma ExpandTargetPlaced(vs: seq<ResourceView>, image: ImageRef)
    requires ExpandTarget(vs, image).Ok?
    ensures Placed(ExpandTarget(vs, image).value.views) == Placed(vs)
  {
    var t := ExpandTarget(vs, image).value;
    if t.views != vs {
      PlacedAppend(vs, ResourceView(Base(image.name), [], "", []));
    }
  }

  /** extractImage only takes entities out of the unresourced ones. */
  lemma ExtractImageKeeps(dest: seq<K8sEntity>, u: seq<K8sEntity>, image: ImageRef)
    ensures forall e :: e in ExtractImageSpec(dest, u, image).pool.rest ==> e in u
  {
    var f := FilterByImage(u, image);
    if f.Ok? {
      var s := f.value;
      FilterByImageConserves(u, image);
      SplitMembers(u, s);
      SweepEntitiesKeeps(Pool(dest + s.passing, s.rest), s.passing);
    }
  }

  lemma ProcessImageConserves(st: State, image: ImageRef)
    ensures var p := ProcessImage(st, image);
      Placed(p.st.views) + multiset(p.st.unresourced) == Placed(st.views) + multiset(st.unresourced)
  {
    var r := ExpandTarget(st.views, image);
    if r.Ok? {
      var t := r.value;
      ExpandTargetPlaced(st.views, image);
      var d := t.views[t.index];
      var x := ExtractImageSpec(d.k8s, st.unresourced, image);
      var d' := d.(k8s := x.pool.dest, imageRef := if x.err.None? then image.name else d.imageRef);
      var vs' := t.views[t.index := d'];
      assert ProcessImage(st, image).st == State(vs', x.pool.rest);
      PlacedUpdate(t.views, t.index, d');
      Cancel(Placed(vs'), multiset(d.k8s), Placed(t.views), multiset(x.pool.dest),
             multiset(x.pool.rest), multiset(st.unresourced));
    }
  }

  lemma {:induction false} ProcessImagesConserves(st: State, images: seq<ImageRef>)
    ensures var p := ProcessImages(st, images);
      Placed(p.st.views) + multiset(p.st.unresourced) == Placed(st.views) + multiset(st.unresourced)
    decreases |images|
  {
    if images != [] {
      ProcessImageConserves(st, images[0]);
      var p := ProcessImage(st, images[0]);
      if p.err.None? {
        ProcessImagesConserves(p.st, images[1..]);
      }
    }
  }

  /**
   * When assemble succeeds, the resources it returns hold every entity that
   * was in a resource before, plus every entity that was unresourced, each
   * exactly as often as before.
   */
  lemma AssembleConserves(st: State, registered: map<string, DockerImage>)
    requires AssembleSpec(st, registered).err.None?
    ensures Placed(AssembleSpec(st, registered).result) == Placed(st.views) + multiset(st.unresourced)
  {
    if |st.unresourced| > 0 {
      var images := UnresourcedImages(st.unresourced, registered).value;
      var p := ProcessImages(st, images);
      ProcessImagesConserves(st, images);
      var empty := ResourceView(UnresourcedName, [], "", []);
      var vs := p.st.views + [empty];
      var last := |vs| - 1;
      var vs' := vs[last := vs[last].(k8s := p.st.unresourced)];
      assert AssembleSpec(st, registered).result == vs';
      PlacedAppend(p.st.views, empty);
      assert multiset(empty.k8s) == multiset{};
      assert Placed(vs) == Placed(p.st.views);
      PlacedUpdate(vs, last, vs[last].(k8s := p.st.unresourced));
      assert multiset(vs[last].k8s) == multiset{};
    }
  }

  /**
   * The deferred step: once every image has been processed without error, a
   * non-empty starting set of unresourced entities yields a last resource
   * named "unresourced" that holds exactly the leftovers (possibly none), unless
   * that name is already taken, in which case assemble reports it and still
   * returns the resources it has.
   */
  lemma AssembleCatchAll(st: State, registered: map<string, DockerImage>)
    requires |st.unresourced| > 0
    requires UnresourcedImages(st.unresourced, registered).Ok?
    requires ProcessImages(st, UnresourcedImages(st.unresourced, registered).value).err.None?
    ensures var p := ProcessImages(st, UnresourcedImages(st.unresourced, registered).value);
      var a := AssembleSpec(st, registered);
      && (NameTaken(p.st.views, UnresourcedName) ==>
            a == Assembled(p.st, p.st.views, Some(DuplicateResource(UnresourcedName))))
      && (!NameTaken(p.st.views, UnresourcedName) ==>
            && a.err.None?
            && a.result == a.st.views
            && a.st.unresourced == p.st.unresourced
            && a.result == p.st.views + [ResourceView(UnresourcedName, p.st.unresourced, "", [])])
  {
    var p := ProcessImages(st, UnresourcedImages(st.unresourced, registered).value);
    if !NameTaken(p.st.views, UnresourcedName) {
      var vs := p.st.views + [ResourceView(UnresourcedName, [], "", [])];
      var last := |vs| - 1;
      assert vs[last := vs[last].(k8s := p.st.unresourced)] == p.st.views + [ResourceView(UnresourcedName, p.st.unresourced, "", [])];
    }
  }

  /**
   * An error in the loop over the claimed images ends assemble with that
   * error and no resources, in whatever state the failing step left; the
   * deferred "unresourced" step does not run.
   */
  lemma AssembleLoopFails(st: State, registered: map<string, DockerImage>)
    requires UnresourcedImages(st.unresourced, registered).Ok?
    requires ProcessImages(st, UnresourcedImages(st.unresourced, registered).value).err.Some?
    ensures var p := ProcessImages(st, UnresourcedImages(st.unresourced, registered).value);
      AssembleSpec(st, registered) == Assembled(p.st, [], p.err)
  {
  }

  /**
   * An unresourced entity that refers to more than one registered image name
   * (counted with repetition) makes assemble fail with no resources and no
   * change to the state; when it is the first entity that cannot be claimed,
   * the error names its registered references and its rendering.
   */
  lemma AmbiguousEntityFailsAssemble(st: State, registered: map<string, DockerImage>, i: nat)
    requires i < |st.unresourced| && st.unresourced[i].images.Ok?
    requires |RegisteredRefs(st.unresourced[i].images.value, registered)| > 1
    ensures var a := AssembleSpec(st, registered);
      a.err.Some? && a.result == [] && a.st == st
    ensures (forall j :: 0 <= j < i ==> ClaimOf(st.unresourced[j], registered).Ok?) ==>
      AssembleSpec(st, registered).err ==
        Some(MultipleImages(RegisteredRefs(st.unresourced[i].images.value, registered), EntityText(st.unresourced[i])))
  {
    var u := st.unresourced;
    var r := UnresourcedImages(u, registered);
    assert ClaimOf(u[i], registered).Fail?;
    UnresourcedImagesOk(u, registered);
    var k := UnresourcedImagesFails(u, registered);
    if forall j :: 0 <= j < i ==> ClaimOf(u[j], registered).Ok? {
      assert k == i;
    }
  }

  // ---------------------------------------------------------------------------
  // Every entity that carries a registered image is placed

  lemma ProcessImageRestShrinks(st: State, image: ImageRef)
    ensures var p := ProcessImage(st, image);
      forall e :: e in p.st.unresourced ==> e in st.unresourced
  {
    var r := ExpandTarget(st.views, image);
    if r.Ok? {
      var d := r.value.views[r.value.index];
      ExtractImageKeeps(d.k8s, st.unresourced, image);
    }
  }

  lemma ProcessImageClears(st: State, image: ImageRef)
    requires ProcessImage(st, image).err.None?
    ensures forall e :: e in ProcessImage(st, image).st.unresourced ==> !CarriesImage(e, image.name)
  {
    var t := ExpandTarget(st.views, image).value;
    var d := t.views[t.index];
    ExtractImageSinglePass(d.k8s, st.unresourced, image);
  }

  lemma {:induction false} ProcessImagesClears(st: State, images: seq<ImageRef>, k: nat)
    requires k < |images|
    requires ProcessImages(st, images).err.None?
    ensures forall e :: e in ProcessImages(st, images).st.unresourced ==> !CarriesImage(e, images[k].name)
    decreases |images|
  {
    var p := ProcessImage(st, images[0]);
    if k == 0 {
      ProcessImageClears(st, images[0]);
      ProcessImagesRestShrinks(p.st, images[1..]);
    } else {
      assert images[1..][k - 1] == images[k];
      ProcessImagesClears(p.st, images[1..], k - 1);
    }
  }

  lemma {:induction false} ProcessImagesRestShrinks(st: State, images: seq<ImageRef>)
    ensures forall e :: e in ProcessImages(st, images).st.unresourced ==> e in st.unresourced
    decreases |images|
  {
    if images != [] {
      var p := ProcessImage(st, images[0]);
      ProcessImageRestShrinks(st, images[0]);
      if p.err.None? {
        ProcessImagesRestShrinks(p.st, images[1..]);
      }
    }
  }

  lemma {:induction false} AllRegisteredRefsHas(es: seq<K8sEntity>, registered: map<string, DockerImage>, i: nat, x: ImageRef)
    requires forall j :: 0 <= j < |es| ==> es[j].images.Ok?
    requires i < |es| && x in RegisteredRefs(es[i].images.value, registered)
    ensures x in AllRegisteredRefs(es, registered)
  {
    if i > 0 {
      assert es[1..][i - 1] == es[i];
      AllRegisteredRefsHas(es[1..], registered, i - 1, x);
    }
  }

  /**
   * When assemble succeeds, no entity that refers to a registered image is
   * left among the entities gathered into "unresourced".
   */
  lemma ImageCarriersArePlaced(st: State, registered: map<string, DockerImage>, i: nat, x: ImageRef)
    requires AssembleSpec(st, registered).err.None?
    requires i < |st.unresourced| && st.unresourced[i].images.Ok?
    requires x in st.unresourced[i].images.value && x.name in registered
    ensures st.unresourced[i] !in AssembleSpec(st, registered).st.unresourced
  {
    var u := st.unresourced;
    UnresourcedImagesOk(u, registered);
    var images := UnresourcedImages(u, registered).value;
    assert x in RegisteredRefs(u[i].images.value, registered);
    AllRegisteredRefsHas(u, registered, i, x);
    var k :| 0 <= k < |images| && images[k] == x;
    ProcessImagesClears(st, images, k);
    var j :| 0 <= j < |u[i].images.value| && u[i].images.value[j] == x;
    assert CarriesImage(u[i], x.name);
  }

  // ---------------------------------------------------------------------------
  // Resource order

  lemma ProcessImageKeepsOrder(st: State, image: ImageRef)
    ensures var p := ProcessImage(st, image);
      |st.views| <= |p.st.views| && forall j :: 0 <= j < |st.views| ==> p.st.views[j].name == st.views[j].name
  {
  }

  /**
   * assemble keeps the resources it started with, by name and in declaration
   * order, and only appends new ones after them.
   */
  lemma {:induction false} ProcessImagesKeepsOrder(st: State, images: seq<ImageRef>)
    ensures var p := ProcessImages(st, images);
      |st.views| <= |p.st.views| && forall j :: 0 <= j < |st.views| ==> p.st.views[j].name == st.views[j].name
    decreases |images|
  {
    if images != [] {
      ProcessImageKeepsOrder(st, images[0]);
      var p := ProcessImage(st, images[0]);
      if p.err.None? {
        ProcessImagesKeepsOrder(p.st, images[1..]);
      }
    }
  }

  // ---------------------------------------------------------------------------
  // No de-duplication of images

  /**
   * Two unresourced entities that use the same registered image put that
   * image twice in the list findUnresourcedImages returns. The first pass
   * creates resource "app" and moves both entities into it; the second pass
   * finds no empty resource and tries to create "app" again, so assemble fails.
   */
  lemma RepeatedImageFailsAssemble(app: ImageRef, deployment: K8sEntity, job: K8sEntity, registered: map<string, DockerImage>)
    requires app.name == "app" && app.name in registered
    requires deployment.images == Ok([app]) && job.images == Ok([app])
    requires deployment.podTemplates == Ok([]) && job.podTemplates == Ok([])
    ensures UnresourcedImages([deployment, job], registered) == Ok([app, app])
    ensures AssembleSpec(State([], [deployment, job]), registered) ==
      Assembled(State([ResourceView("app", [deployment, job], "app", [])], []), [], Some(DuplicateResource("app")))
  {
    var st1 := State([ResourceView("app", [deployment, job], "app", [])], []);
    RepeatedClaims(app, deployment, job, registered);
    AppBase();
    FirstPassTakesBoth(app, deployment, job);
    SecondPassCollides(st1, app);
    assert [app, app][1..] == [app];
    assert ProcessImages(st1, [app]) == Progress(st1, Some(DuplicateResource("app")));
  }

  lemma AppBase()
    ensures Base("app") == "app"
  {
    assert TrimTrailingSlashes("app") == "app";
    assert "app"[..2] == "ap" && "ap"[..1] == "a" && "a"[..0] == "";
    assert AfterLastSlash("app") == "app";
  }

  /** Each of two entities claims the one registered image: findUnresourcedImages lists it twice. */
  lemma RepeatedClaims(app: ImageRef, deployment: K8sEntity, job: K8sEntity, registered: map<string, DockerImage>)
    requires app.name in registered
    requires deployment.images == Ok([app]) && job.images == Ok([app])
    ensures UnresourcedImages([deployment, job], registered) == Ok([app, app])
  {
    assert [app][1..] == [];
    assert RegisteredRefs([app], registered) == [app];
    assert ClaimOf(deployment, registered) == Ok(Some(app));
    assert ClaimOf(job, registered) == Ok(Some(app));
    assert [deployment, job][1..] == [job] && [job][1..] == [];
    assert UnresourcedImages([job], registered) == Ok([app]);
    assert [app] + [app] == [app, app];
  }

  /** With no resources yet, the first pass creates one named after the image and moves both entities into it. */
  lemma FirstPassTakesBoth(app: ImageRef, deployment: K8sEntity, job: K8sEntity)
    requires app.name == "app" && Base("app") == "app"
    requires deployment.images == Ok([app]) && job.images == Ok([app])
    requires deployment.podTemplates == Ok([]) && job.podTemplates == Ok([])
    ensures ProcessImage(State([], [deployment, job]), app) ==
      Progress(State([ResourceView("app", [deployment, job], "app", [])], []), None)
  {
    var u := [deployment, job];
    var empty := ResourceView("app", [], "", []);
    assert MakeResource([], "app") == Ok([empty]);
    assert ExpandTarget([], app) == Ok(Target([empty], 0));
    ExtractBoth(app, deployment, job);
    var bound := ResourceView("app", u, "app", []);
    assert empty.(k8s := u, imageRef := app.name) == bound;
    assert ProcessImage(State([], u), app) == Progress(State([empty][0 := bound], []), None);
    assert [empty][0 := bound] == [bound];
  }

  lemma ExtractBoth(app: ImageRef, deployment: K8sEntity, job: K8sEntity)
    requires deployment.images == Ok([app]) && job.images == Ok([app])
    requires deployment.podTemplates == Ok([]) && job.podTemplates == Ok([])
    ensures ExtractImageSpec([], [deployment, job], app) == Sweep(Pool([deployment, job], []), None)
  {
    var u := [deployment, job];
    BothCarry(app, deployment, job);
    assert u[0] == deployment && u[1] == job;
    NoTemplatesNoSweep(Pool(u, []), u);
    assert [] + u == u;
  }

  lemma BothCarry(app: ImageRef, deployment: K8sEntity, job: K8sEntity)
    requires deployment.images == Ok([app]) && job.images == Ok([app])
    ensures FilterByImage([deployment, job], app) == Ok(Split([deployment, job], []))
  {
    assert RefersTo([app], app.name) by { assert [app][0].name == app.name; }
    assert FilterByImage([], app) == Ok(Split([], []));
    assert [job] + [] == [job] && [deployment] + [job] == [deployment, job];
    assert [deployment, job][1..] == [job] && [job][1..] == [];
    assert FilterByImage([job], app) == Ok(Split([job], []));
  }

  /** Entities without pod templates select nothing: the sweep leaves the pool alone. */
  lemma {:induction false} NoTemplatesNoSweep(p: Pool, es: seq<K8sEntity>)
    requires forall i :: 0 <= i < |es| ==> es[i].podTemplates == Ok([])
    ensures SweepEntities(p, es) == Sweep(p, None)
    decreases |es|
  {
    if es != [] {
      assert SweepTemplates(p, []) == p;
      NoTemplatesNoSweep(p, es[1..]);
    }
  }

  /** A resource named after the image that already holds entities makes the next pass for that image fail. */
  lemma SecondPassCollides(st: State, app: ImageRef)
    requires app.name == "app" && Base("app") == "app"
    requires |st.views| == 1 && st.views[0].name == "app" && st.views[0].k8s != []
    ensures ProcessImage(st, app) == Progress(st, Some(DuplicateResource("app")))
  {
    assert st.views[1..] == [];
    assert FirstAwaiting(st.views, ByImageRef("app")) == None;
    assert FirstAwaiting(st.views, ByName("app")) == None;
    assert NameTaken(st.views, "app");
    assert ExpandTarget(st.views, app) == Fail(DuplicateResource("app"));
  }
}
