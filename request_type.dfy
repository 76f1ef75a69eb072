/**
 * The request type registry of the namespaced layout: the backed enum
 * `RequestType` with its wire tags, `RequestType::from` and `createFrom`.
 */
module RequestTypes {
  import opened Wrappers
  import Requests

  datatype RequestType = Connect | Refresh | Publish | Subscribe | RPC

  /** The backing value `->value` of each case: the `type` header tag. */
  function Tag(t: RequestType): string {
    match t
    case Connect => "connect"
    case Refresh => "refresh"
    case Publish => "publish"
    case Subscribe => "subscribe"
    case RPC => "rpc"
  }

  const AllTags: set<string> := {"connect", "refresh", "publish", "subscribe", "rpc"}

  /**
   * `RequestType::from($tag)`; None where PHP throws a ValueError.
   * It accepts exactly the five tags and inverts Tag.
   */
  function From(tag: string): (r: Option<RequestType>)
    ensures r.Some? <==> tag in AllTags
    ensures r.Some? ==> Tag(r.value) == tag
  {
    if tag == "connect" then Some(Connect)
    else if tag == "refresh" then Some(Refresh)
    else if tag == "publish" then Some(Publish)
    else if tag == "subscribe" then Some(Subscribe)
    else if tag == "rpc" then Some(RPC)
    else None
  }

  /** Tag and From are inverse: the tags are pairwise distinct. */
  lemma TagBijection(t: RequestType, u: RequestType)
    ensures From(Tag(t)) == Some(t)
    ensures Tag(t) == Tag(u) ==> t == u
    ensures Tag(t) in AllTags
  {
  }

  /**
   * `createFrom`: the case of a request's own class. The PHP default arm,
   * an unsupported request class, has no counterpart over this closed type.
   */
  function CreateFrom(r: Requests.Request): (t: RequestType)
    ensures t == Connect <==> r.Connect?
    ensures t == Subscribe <==> r.Subscribe?
    ensures t == Refresh <==> r.Refresh?
    ensures t == Publish <==> r.Publish?
    ensures t == RPC <==> r.RPC?
  {
    match r
    case Connect(_, _, _, _, _, _, _, _, _) => Connect
    case Subscribe(_, _, _, _, _, _, _, _, _, _) => Subscribe
    case Refresh(_, _, _, _, _, _, _) => Refresh
    case Publish(_, _, _, _, _, _, _, _, _) => Publish
    case RPC(_, _, _, _, _, _, _, _, _) => RPC
  }
}
