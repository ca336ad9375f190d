/** Entity projection: how every data source copies a catalog entity's metadata and
    relations into terraform state. Scalars are copied one to one, lists element by
    element in source order, and label/annotation maps key by key into new maps. */
module Projection {
  import opened Framework
  import opened Catalog

  datatype LinkModel = LinkModel(url: Str, title: Str, icon: Str, linkType: Str)

  datatype RelationTargetModel = RelationTargetModel(name: Str, kind: Str, namespace: Str)

  datatype RelationModel = RelationModel(relationType: Str, targetRef: Str, target: Option<RelationTargetModel>)

  /** `entityMetadataModel`. */
  datatype MetadataModel = MetadataModel(
    uid: Str,
    etag: Str,
    name: Str,
    namespace: Str,
    title: Str,
    description: Str,
    annotations: map<string, string>,
    labels: map<string, string>,
    tags: seq<Str>,
    links: seq<LinkModel>)

  /** `types.StringValue`. */
  function StringValue(x: string): Str {
    Value(x)
  }

  /** The list that `for _, x := range xs { out = append(out, f(x)) }` builds from an empty `out`. */
  function MapSeq<A, B>(f: A -> B, xs: seq<A>): seq<B>
    decreases |xs|
  {
    if xs == [] then [] else MapSeq(f, xs[..|xs| - 1]) + [f(xs[|xs| - 1])]
  }

  /** The append loop keeps the length and the order: element `i` of the result is `f` of element `i`. */
  lemma {:induction false} MapSeqAt<A, B>(f: A -> B, xs: seq<A>, i: nat)
    requires i < |xs|
    ensures |MapSeq(f, xs)| == |xs|
    ensures MapSeq(f, xs)[i] == f(xs[i])
    decreases |xs|
  {
    var init := xs[..|xs| - 1];
    if i < |init| {
      MapSeqAt(f, init, i);
    } else if init != [] {
      MapSeqAt(f, init, 0);
    }
  }

  /** Appending the elements of `a` and then those of `b` is one loop over `a + b`. */
  lemma {:induction false} MapSeqAppend<A, B>(f: A -> B, a: seq<A>, b: seq<A>)
    ensures MapSeq(f, a + b) == MapSeq(f, a) + MapSeq(f, b)
    decreases |b|
  {
    if b != [] {
      var b' := b[..|b| - 1];
      assert (a + b)[..|a + b| - 1] == a + b';
      MapSeqAppend(f, a, b');
    } else {
      assert a + b == a;
    }
  }

  /** Projecting with `f` and reading back with a left inverse `g` gives the source list. */
  lemma {:induction false} MapSeqLeftInverse<A, B>(f: A -> B, g: B -> A, xs: seq<A>)
    requires forall i :: 0 <= i < |xs| ==> g(f(xs[i])) == xs[i]
    ensures MapSeq(g, MapSeq(f, xs)) == xs
    decreases |xs|
  {
    if xs != [] {
      var init := xs[..|xs| - 1];
      MapSeqLeftInverse(f, g, init);
      assert MapSeq(f, xs)[..|MapSeq(f, xs)| - 1] == MapSeq(f, init);
      assert xs == init + [xs[|xs| - 1]];
    }
  }

  /** The loop that copies a list element by element into a new one. */
  method CopyEach<A, B>(f: A -> B, xs: seq<A>) returns (r: seq<B>)
    ensures r == MapSeq(f, xs)
  {
    r := [];
    var i := 0;
    while i < |xs|
      invariant 0 <= i <= |xs|
      invariant r == MapSeq(f, xs[..i])
    {
      assert xs[..i + 1][..i] == xs[..i];
      r := r + [f(xs[i])];
      i := i + 1;
    }
    assert xs[..i] == xs;
  }

  /** The loop `for k, v := range src { dst[k] = v }` into a freshly made map: the new
      map has exactly the keys and values of the source. */
  method CopyMap(src: map<string, string>) returns (dst: map<string, string>)
    ensures dst.Keys == src.Keys
    ensures forall k :: k in src ==> dst[k] == src[k]
  {
    dst := map[];
    var pending := src.Keys;
    while pending != {}
      invariant pending <= src.Keys
      invariant dst.Keys == src.Keys - pending
      invariant forall k :: k in dst ==> dst[k] == src[k]
      decreases pending
    {
      var k :| k in pending;
      dst := dst[k := src[k]];
      pending := pending - {k};
    }
  }

  function LinkOf(l: Link): LinkModel {
    LinkModel(StringValue(l.url), StringValue(l.title), StringValue(l.icon), StringValue(l.linkType))
  }

  /** A relation's projection always carries a target. */
  function RelationOf(r: Relation): RelationModel {
    RelationModel(
      StringValue(r.relationType),
      StringValue(r.targetRef),
      Some(RelationTargetModel(StringValue(r.target.name), StringValue(r.target.kind), StringValue(r.target.namespace))))
  }

  function RelationsOf(rs: seq<Relation>): seq<RelationModel> {
    MapSeq(RelationOf, rs)
  }

  /** The projection of `Metadata` into a fresh `entityMetadataModel`. */
  function MetadataOf(m: Metadata): MetadataModel {
    MetadataModel(
      StringValue(m.uid), StringValue(m.etag), StringValue(m.name), StringValue(m.namespace),
      StringValue(m.title), StringValue(m.description),
      m.annotations, m.labels,
      MapSeq(StringValue, m.tags),
      MapSeq(LinkOf, m.links))
  }

  /** The relations loop of every `Read`. */
  method CopyRelations(rs: seq<Relation>) returns (r: seq<RelationModel>)
    ensures r == RelationsOf(rs)
  {
    r := CopyEach(RelationOf, rs);
  }

  /** The metadata block of every `Read`: scalars, then the label and annotation
      maps, then the tag and link loops. */
  method CopyMetadata(m: Metadata) returns (r: MetadataModel)
    ensures r == MetadataOf(m)
  {
    r := MetadataModel(
      StringValue(m.uid), StringValue(m.etag), StringValue(m.name), StringValue(m.namespace),
      StringValue(m.title), StringValue(m.description), map[], map[], [], []);
    var labels := CopyMap(m.labels);
    var annotations := CopyMap(m.annotations);
    r := r.(labels := labels, annotations := annotations);
    var tags := CopyEach(StringValue, m.tags);
    var links := CopyEach(LinkOf, m.links);
    r := r.(tags := tags, links := links);
  }

  /** Every projected relation has a target whose kind, name and namespace are the
      source's, in the source's order. */
  lemma RelationsOfAt(rs: seq<Relation>)
    ensures |RelationsOf(rs)| == |rs|
    ensures forall i :: 0 <= i < |rs| ==>
      RelationsOf(rs)[i].relationType == Value(rs[i].relationType) &&
      RelationsOf(rs)[i].targetRef == Value(rs[i].targetRef) &&
      RelationsOf(rs)[i].target == Some(RelationTargetModel(Value(rs[i].target.name), Value(rs[i].target.kind), Value(rs[i].target.namespace)))
  {
    if rs != [] {
      MapSeqAt(RelationOf, rs, 0);
    }
    forall i | 0 <= i < |rs|
      ensures RelationsOf(rs)[i] == RelationOf(rs[i])
    {
      MapSeqAt(RelationOf, rs, i);
    }
  }

  function LinkFrom(l: LinkModel): Link {
    Link(ValueString(l.url), ValueString(l.title), ValueString(l.icon), ValueString(l.linkType))
  }

  /** Reads a projected metadata block back into the catalog's shape. */
  function MetadataFrom(m: MetadataModel): Metadata {
    Metadata(
      ValueString(m.uid), ValueString(m.etag), ValueString(m.name), ValueString(m.namespace),
      ValueString(m.title), ValueString(m.description),
      m.labels, m.annotations,
      MapSeq(ValueString, m.tags),
      MapSeq(LinkFrom, m.links))
  }

  /** The projection loses nothing: every scalar, label, annotation, tag and link of the
      source metadata can be read back from it, tags and links in their order. */
  lemma MetadataRoundTrip(m: Metadata)
    ensures MetadataFrom(MetadataOf(m)) == m
  {
    MapSeqLeftInverse(StringValue, ValueString, m.tags);
    MapSeqLeftInverse(LinkOf, LinkFrom, m.links);
  }
}
