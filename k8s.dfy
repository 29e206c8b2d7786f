/**
 * Cluster entities and the k8s helpers the assembler calls (FindImages,
 * ExtractPodTemplateSpec, FilterByImage, FilterByLabels, SerializeYAML).
 * Their Go bodies live in the k8s package, which is not part of this model:
 * an entity carries the facts those helpers derive from the document, and the
 * filters are written as order-preserving partitions.
 */
module K8s {
  import opened Results

  type Labels = map<string, string>

  /** A `reference.Named`; the assembler only ever compares `Name()`. */
  datatype ImageRef = ImageRef(name: string, tag: string)

  /**
   * An opaque cluster document. `yaml` is its serialization (None when
   * serializing it fails), `images` what FindImages reports for it,
   * `labels` its own metadata labels and `podTemplates` the label sets of the
   * pod templates ExtractPodTemplateSpec finds in it.
   */
  datatype K8sEntity = K8sEntity(
    yaml: Option<string>,
    images: Result<seq<ImageRef>, string>,
    labels: Labels,
    podTemplates: Result<seq<Labels>, string>)

  function FindImages(e: K8sEntity): Result<seq<ImageRef>, string> { e.images }

  function ExtractPodTemplateSpec(e: K8sEntity): Result<seq<Labels>, string> { e.podTemplates }

  /** The entity's labels include every pair of the selector. */
  predicate MatchesLabels(e: K8sEntity, selector: Labels) {
    forall k :: k in selector ==> k in e.labels && e.labels[k] == selector[k]
  }

  predicate RefersTo(images: seq<ImageRef>, name: string) {
    exists i :: 0 <= i < |images| && images[i].name == name
  }

  predicate CarriesImage(e: K8sEntity, name: string) {
    e.images.Ok? && RefersTo(e.images.value, name)
  }

  datatype Split = Split(passing: seq<K8sEntity>, rest: seq<K8sEntity>)

  /**
   * Partitions entities by whether they carry the image; fails with the error
   * of the first entity whose images cannot be found.
   */
  function FilterByImage(es: seq<K8sEntity>, image: ImageRef): (r: Result<Split, string>)
    ensures r.Ok? <==> forall i :: 0 <= i < |es| ==> es[i].images.Ok?
  {
    if es == [] then Ok(Split([], []))
    else
      match FindImages(es[0])
      case Fail(msg) => Fail(msg)
      case Ok(imgs) =>
        match FilterByImage(es[1..], image)
        case Fail(msg) =>
          assert exists i :: 0 <= i < |es[1..]| && !es[1..][i].images.Ok?;
          Fail(msg)
        case Ok(s) =>
          if RefersTo(imgs, image.name) then Ok(Split([es[0]] + s.passing, s.rest))
          else Ok(Split(s.passing, [es[0]] + s.rest))
  }

  /** Every entity goes to exactly one side. */
  lemma {:induction false} FilterByImageConserves(es: seq<K8sEntity>, image: ImageRef)
    requires FilterByImage(es, image).Ok?
    ensures multiset(FilterByImage(es, image).value.passing) + multiset(FilterByImage(es, image).value.rest) == multiset(es)
  {
    if es != [] {
      FilterByImageConserves(es[1..], image);
      assert es == [es[0]] + es[1..];
    }
  }

  /** The passing entities carry the image; the others do not. */
  lemma {:induction false} FilterByImageSplits(es: seq<K8sEntity>, image: ImageRef)
    requires FilterByImage(es, image).Ok?
    ensures forall e :: e in FilterByImage(es, image).value.passing ==> CarriesImage(e, image.name)
    ensures forall e :: e in FilterByImage(es, image).value.rest ==> !CarriesImage(e, image.name)
  {
    if es != [] {
      FilterByImageSplits(es[1..], image);
    }
  }

  /** Partitions entities by whether they match the selector. */
  function FilterByLabels(es: seq<K8sEntity>, selector: Labels): (r: Split)
    ensures |r.passing| + |r.rest| == |es|
  {
    if es == [] then Split([], [])
    else
      var s := FilterByLabels(es[1..], selector);
      if MatchesLabels(es[0], selector) then Split([es[0]] + s.passing, s.rest)
      else Split(s.passing, [es[0]] + s.rest)
  }

  /** Every entity goes to exactly one side. */
  lemma {:induction false} FilterByLabelsConserves(es: seq<K8sEntity>, selector: Labels)
    ensures multiset(FilterByLabels(es, selector).passing) + multiset(FilterByLabels(es, selector).rest) == multiset(es)
  {
    if es != [] {
      FilterByLabelsConserves(es[1..], selector);
      assert es == [es[0]] + es[1..];
    }
  }

  /** The passing entities match the selector; the others do not. */
  lemma {:induction false} FilterByLabelsSplits(es: seq<K8sEntity>, selector: Labels)
    ensures forall e :: e in FilterByLabels(es, selector).passing ==> MatchesLabels(e, selector)
    ensures forall e :: e in FilterByLabels(es, selector).rest ==> !MatchesLabels(e, selector)
  {
    if es != [] {
      FilterByLabelsSplits(es[1..], selector);
    }
  }

  /** The documents joined by YAML separators; fails on the first unserializable one. */
  function SerializeYAML(es: seq<K8sEntity>): (r: Result<string, string>)
    ensures r.Ok? <==> forall i :: 0 <= i < |es| ==> es[i].yaml.Some?
  {
    if es == [] then Ok("")
    else if es[0].yaml.None? then Fail("yaml: cannot marshal entity")
    else if |es| == 1 then Ok(es[0].yaml.value)
    else
      match SerializeYAML(es[1..])
      case Fail(msg) => Fail(msg)
      case Ok(tail) => Ok(es[0].yaml.value + "\n---\n" + tail)
  }
}
