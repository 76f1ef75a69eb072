/**
 * The request type enum of the flat layout (`RoadRunner\Centrifugo\RequestType`):
 * the same five tags as the namespaced enum, without `createFrom`.
 */
module FlatRequestTypes {
  import opened Wrappers
  import RequestTypes

  datatype FlatRequestType = Connect | Refresh | Publish | Subscribe | RPC

  /** The backing value of each case. */
  function Tag(t: FlatRequestType): string {
    match t
    case Connect => "connect"
    case Refresh => "refresh"
    case Publish => "publish"
    case Subscribe => "subscribe"
    case RPC => "rpc"
  }

  /** `RequestType::from($tag)`; None where PHP throws a ValueError. */
  function From(tag: string): (r: Option<FlatRequestType>)
    ensures r.Some? ==> Tag(r.value) == tag
    ensures r.None? ==> forall t :: Tag(t) != tag
  {
    if tag == "connect" then Some(Connect)
    else if tag == "refresh" then Some(Refresh)
    else if tag == "publish" then Some(Publish)
    else if tag == "subscribe" then Some(Subscribe)
    else if tag == "rpc" then Some(RPC)
    else None
  }

  /** The namespaced case with the same tag. */
  function Namespaced(t: FlatRequestType): (u: RequestTypes.RequestType)
    ensures RequestTypes.Tag(u) == Tag(t)
  {
    match t
    case Connect => RequestTypes.Connect
    case Refresh => RequestTypes.Refresh
    case Publish => RequestTypes.Publish
    case Subscribe => RequestTypes.Subscribe
    case RPC => RequestTypes.RPC
  }

  /**
   * Both enums accept exactly the same tags and agree on the case each
   * tag names; within each, the tags are pairwise distinct.
   */
  lemma SameTagsAsNamespaced(tag: string)
    ensures From(tag).Some? <==> tag in RequestTypes.AllTags
    ensures From(tag).Some? ==> RequestTypes.From(tag) == Some(Namespaced(From(tag).value))
    ensures forall t, u :: Tag(t) == Tag(u) ==> t == u
  {
  }
}
