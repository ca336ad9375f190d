/** The catalog client's side of a read: the entity shapes the go-backstage client
    decodes, and what one client call hands back. The client and the network are not
    modelled; a call is the triple `(value, *http.Response, error)` it returns. */
module Catalog {
  import opened Framework

  datatype Link = Link(url: string, title: string, icon: string, linkType: string)

  datatype RelationTarget = RelationTarget(kind: string, name: string, namespace: string)

  datatype Relation = Relation(relationType: string, targetRef: string, target: RelationTarget)

  datatype Metadata = Metadata(
    uid: string,
    etag: string,
    name: string,
    namespace: string,
    title: string,
    description: string,
    labels: map<string, string>,
    annotations: map<string, string>,
    tags: seq<string>,
    links: seq<Link>)

  /** A catalog entity of some kind whose spec has type `Spec`. */
  datatype Entity<Spec> = Entity(apiVersion: string, kind: string, metadata: Metadata, spec: Spec, relations: seq<Relation>)

  /** The fields of `*http.Response` the provider reads: `StatusCode` and the status line `Status`. */
  datatype HttpResponse = HttpResponse(statusCode: int, status: string)

  /** What one catalog call returns: the decoded value, the HTTP response (always
      present, as the source dereferences it even after an error) and the error. */
  datatype Reply<T> = Reply(value: T, response: HttpResponse, err: Option<string>)

  const StatusOK: int := 200
  const StatusCreated: int := 201
  const StatusNoContent: int := 204

  const KindGroup: string := "Group"
  const KindLocation: string := "Location"
  const KindResource: string := "Resource"
  const KindSystem: string := "System"
}
