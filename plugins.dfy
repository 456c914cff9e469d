/**
 * The plugins store: a cached list of plugins, a loading flag, optimistic
 * per-record patches after confirmed like/subscribe calls, a local filter after
 * a confirmed delete, and one realtime channel on the `plugins` table.
 */
module Plugins {
  import opened Wrappers
  import opened Remote
  import opened Realtime

  datatype Author = Author(id: string, username: string, avatar: string)

  /** A plugin as cached. `isLiked` and `isSubscribed` are optional fields of the record. */
  datatype Plugin = Plugin(
    id: string,
    name: string,
    description: string,
    version: string,
    liked: int,
    isLiked: Option<bool>,
    isSubscribed: Option<bool>,
    status: string,
    schema: string,
    code: string,
    author: Author,
    createdAt: string,
    updatedAt: string)

  /** The body sent by `createPlugin` and `updatePlugin`. */
  datatype PluginDraft = PluginDraft(name: string, description: string, version: string, schema: string, code: string)

  /** The optional filter of `fetchPlugins`. */
  datatype PluginFilter = PluginFilter(status: Option<string>, authorId: Option<string>)

  /** The remote procedures the store calls. */
  datatype Endpoint =
    | PluginList(filter: Option<PluginFilter>)   // plugins, plugins?<filter>
    | PluginItem(id: string)                     // plugins/<id>
    | PluginSubscription(id: string)             // plugins/<id>/subscribe
    | PluginLike(id: string)                     // plugins/<id>/like

  datatype Request = Request(verb: Verb, endpoint: Endpoint)

  /** `{ success: true, data? }` or `{ success: false, error }`. */
  datatype Response = Succeeded(data: Option<Plugin>) | Failed(error: string)

  /** Index `i` holds the first plugin with that id. */
  predicate IsFirst(ps: seq<Plugin>, id: string, i: int) {
    0 <= i < |ps| && ps[i].id == id && forall j :: 0 <= j < i ==> ps[j].id != id
  }

  /** `plugins.find(p => p.id === id)`, as the index of the record it finds. */
  function FindIndex(ps: seq<Plugin>, id: string): (r: Option<nat>)
    ensures r.Some? ==> IsFirst(ps, id, r.value)
    ensures r.None? ==> forall i :: 0 <= i < |ps| ==> ps[i].id != id
  {
    if ps == [] then None
    else if ps[0].id == id then Some(0)
    else match FindIndex(ps[1..], id)
      case None => None
      case Some(k) => Some(k + 1)
  }

  /**
   * Apply `f` in place to the record `find` returns, if any: the first record
   * with that id changes, and every other record stays as it was.
   */
  function PatchFirst(ps: seq<Plugin>, id: string, f: Plugin -> Plugin): (r: seq<Plugin>)
    ensures |r| == |ps|
    ensures forall i :: 0 <= i < |ps| ==> r[i] == if IsFirst(ps, id, i) then f(ps[i]) else ps[i]
  {
    match FindIndex(ps, id)
    case None => ps
    case Some(k) => ps[k := f(ps[k])]
  }

  /** The patch of a confirmed like: liked, one more like, nothing else touched. */
  function Like(p: Plugin): (r: Plugin)
    ensures r.isLiked == Some(true) && r.liked == p.liked + 1
    ensures r.(isLiked := p.isLiked, liked := p.liked) == p
  {
    p.(isLiked := Some(true), liked := p.liked + 1)
  }

  /** The patch of a confirmed unlike: not liked, one like fewer (with no lower bound), nothing else touched. */
  function Unlike(p: Plugin): (r: Plugin)
    ensures r.isLiked == Some(false) && r.liked == p.liked - 1
    ensures r.(isLiked := p.isLiked, liked := p.liked) == p
  {
    p.(isLiked := Some(false), liked := p.liked - 1)
  }

  /** The patch of a confirmed subscribe: only `isSubscribed` changes. */
  function MarkSubscribed(p: Plugin): (r: Plugin)
    ensures r.isSubscribed == Some(true)
    ensures r.(isSubscribed := p.isSubscribed) == p
  {
    p.(isSubscribed := Some(true))
  }

  /** The patch of a confirmed unsubscribe: only `isSubscribed` changes. */
  function MarkUnsubscribed(p: Plugin): (r: Plugin)
    ensures r.isSubscribed == Some(false)
    ensures r.(isSubscribed := p.isSubscribed) == p
  {
    p.(isSubscribed := Some(false))
  }

  /** `plugins.filter(p => p.id !== id)`. */
  function Without(ps: seq<Plugin>, id: string): (r: seq<Plugin>)
    ensures |r| <= |ps|
    ensures forall p :: p in r <==> p in ps && p.id != id
  {
    if ps == [] then []
    else (if ps[0].id == id then [] else [ps[0]]) + Without(ps[1..], id)
  }

  /** A patch that keeps ids leaves the position of the first match where it was. */
  lemma PatchKeepsFirst(ps: seq<Plugin>, id: string, f: Plugin -> Plugin)
    requires forall p :: f(p).id == p.id
    ensures forall i :: IsFirst(PatchFirst(ps, id, f), id, i) <==> IsFirst(ps, id, i)
  {
  }

  /** Liking then unliking the same cached plugin restores every `liked` count. */
  lemma LikeThenUnlikeRestoresCount(ps: seq<Plugin>, id: string)
    ensures var r := PatchFirst(PatchFirst(ps, id, Like), id, Unlike);
      |r| == |ps| &&
      forall i :: 0 <= i < |ps| ==>
        r[i].liked == ps[i].liked &&
        r[i] == if IsFirst(ps, id, i) then ps[i].(isLiked := Some(false)) else ps[i]
  {
  }

  /** Filtering distributes over concatenation: the kept records stay in their original order. */
  lemma {:induction false} WithoutKeepsOrder(a: seq<Plugin>, b: seq<Plugin>, id: string)
    ensures Without(a + b, id) == Without(a, id) + Without(b, id)
  {
    if a == [] {
      assert a + b == b;
    } else {
      assert (a + b)[1..] == a[1..] + b;
      WithoutKeepsOrder(a[1..], b, id);
    }
  }

  /** Deleting an id that no cached record has leaves the list as it was. */
  lemma {:induction false} WithoutAbsent(ps: seq<Plugin>, id: string)
    requires forall i :: 0 <= i < |ps| ==> ps[i].id != id
    ensures Without(ps, id) == ps
  {
    if ps != [] {
      WithoutAbsent(ps[1..], id);
    }
  }

  /** Deleting the same id twice removes nothing more the second time. */
  lemma WithoutIdempotent(ps: seq<Plugin>, id: string)
    ensures Without(Without(ps, id), id) == Without(ps, id)
  {
    var r := Without(ps, id);
    forall i | 0 <= i < |r| ensures r[i].id != id {
      assert r[i] in r;
    }
    WithoutAbsent(r, id);
  }

  const PluginsChannel := Channel("public:plugins", "plugins", AnyEvent, None)

  class PluginsStore {
    var plugins: seq<Plugin>
    var loading: bool
    var subscription: Option<Channel>
    /** Channels this store opened and has not removed. */
    ghost var liveChannels: nat
    /** The remote calls this store issued, oldest first. */
    ghost var requests: seq<Request>

    ghost predicate Valid()
      reads this
    {
      liveChannels == Live(subscription)
    }

    constructor ()
      ensures Valid()
      ensures plugins == [] && !loading && subscription == None && requests == []
    {
      plugins := [];
      loading := false;
      subscription := None;
      liveChannels := 0;
      requests := [];
    }

    method FetchPlugins(params: Option<PluginFilter>, reply: Reply<seq<Plugin>>)
      modifies this`plugins, this`loading, this`requests
      ensures plugins == Refreshed(old(plugins), reply)
      ensures !loading
      ensures requests == old(requests) + [Request(GET, PluginList(params))]
    {
      loading := true;
      requests := requests + [Request(GET, PluginList(params))];
      match reply {
        case Failure(_) =>
        case Success(data) =>
          plugins := data.GetOr([]);
      }
      loading := false;
    }

    method GetPluginById(id: string, reply: Reply<Plugin>) returns (r: Option<Plugin>)
      modifies this`requests
      ensures r.Some? <==> reply.Success? && reply.data.Some?
      ensures r.Some? ==> r == reply.data
      ensures requests == old(requests) + [Request(GET, PluginItem(id))]
    {
      requests := requests + [Request(GET, PluginItem(id))];
      match reply {
        case Failure(_) => r := None;
        case Success(data) => r := data;
      }
    }

    method SubscribePlugin(id: string, ack: Ack) returns (ok: bool)
      modifies this`plugins, this`requests
      ensures ok <==> ack.Accepted?
      ensures plugins == if ok then PatchFirst(old(plugins), id, MarkSubscribed) else old(plugins)
      ensures requests == old(requests) + [Request(POST, PluginSubscription(id))]
    {
      requests := requests + [Request(POST, PluginSubscription(id))];
      if ack.Rejected? {
        return false;
      }
      plugins := PatchFirst(plugins, id, MarkSubscribed);
      ok := true;
    }

    method UnsubscribePlugin(id: string, ack: Ack) returns (ok: bool)
      modifies this`plugins, this`requests
      ensures ok <==> ack.Accepted?
      ensures plugins == if ok then PatchFirst(old(plugins), id, MarkUnsubscribed) else old(plugins)
      ensures requests == old(requests) + [Request(DELETE, PluginSubscription(id))]
    {
      requests := requests + [Request(DELETE, PluginSubscription(id))];
      if ack.Rejected? {
        return false;
      }
      plugins := PatchFirst(plugins, id, MarkUnsubscribed);
      ok := true;
    }

    method CreatePlugin(draft: PluginDraft, reply: Reply<Plugin>) returns (r: Response)
      modifies this`loading, this`requests
      ensures r == if reply.Failure? then Failed(reply.message) else Succeeded(reply.data)
      ensures !loading
      ensures requests == old(requests) + [Request(POST, PluginList(None))]
    {
      loading := true;
      requests := requests + [Request(POST, PluginList(None))];
      match reply {
        case Failure(message) => r := Failed(message);
        case Success(data) => r := Succeeded(data);
      }
      loading := false;
    }

    method LikePlugin(id: string, ack: Ack) returns (ok: bool)
      modifies this`plugins, this`requests
      ensures ok <==> ack.Accepted?
      ensures plugins == if ok then PatchFirst(old(plugins), id, Like) else old(plugins)
      ensures requests == old(requests) + [Request(POST, PluginLike(id))]
    {
      requests := requests + [Request(POST, PluginLike(id))];
      if ack.Rejected? {
        return false;
      }
      plugins := PatchFirst(plugins, id, Like);
      ok := true;
    }

    method UnlikePlugin(id: string, ack: Ack) returns (ok: bool)
      modifies this`plugins, this`requests
      ensures ok <==> ack.Accepted?
      ensures plugins == if ok then PatchFirst(old(plugins), id, Unlike) else old(plugins)
      ensures requests == old(requests) + [Request(DELETE, PluginLike(id))]
    {
      requests := requests + [Request(DELETE, PluginLike(id))];
      if ack.Rejected? {
        return false;
      }
      plugins := PatchFirst(plugins, id, Unlike);
      ok := true;
    }

    method UpdatePlugin(id: string, draft: PluginDraft, reply: Reply<Plugin>) returns (r: Response)
      modifies this`loading, this`requests
      ensures r == if reply.Failure? then Failed(reply.message) else Succeeded(reply.data)
      ensures !loading
      ensures requests == old(requests) + [Request(PUT, PluginItem(id))]
    {
      loading := true;
      requests := requests + [Request(PUT, PluginItem(id))];
      match reply {
        case Failure(message) => r := Failed(message);
        case Success(data) => r := Succeeded(data);
      }
      loading := false;
    }

    method DeletePlugin(id: string, ack: Ack) returns (r: Response)
      modifies this`plugins, this`loading, this`requests
      ensures r == if ack.Rejected? then Failed(ack.message) else Succeeded(None)
      ensures plugins == if ack.Accepted? then Without(old(plugins), id) else old(plugins)
      ensures !loading
      ensures requests == old(requests) + [Request(DELETE, PluginItem(id))]
    {
      loading := true;
      requests := requests + [Request(DELETE, PluginItem(id))];
      match ack {
        case Rejected(message) =>
          r := Failed(message);
        case Accepted =>
          plugins := Without(plugins, id);
          r := Succeeded(None);
      }
      loading := false;
    }

    method SubscribeToChanges()
      requires Valid()
      modifies this`subscription, this`liveChannels
      ensures Valid()
      ensures subscription == if old(subscription).Some? then old(subscription) else Some(PluginsChannel)
      ensures liveChannels == old(liveChannels) + (if old(subscription).None? then 1 else 0)
    {
      if subscription.Some? {
        return;
      }
      subscription := Some(PluginsChannel);
      liveChannels := liveChannels + 1;
    }

    method UnsubscribeFromChanges()
      requires Valid()
      modifies this`subscription, this`liveChannels
      ensures Valid()
      ensures subscription == None
      ensures liveChannels == old(liveChannels) - Live(old(subscription))
    {
      if subscription.Some? {
        subscription := None;
        liveChannels := liveChannels - 1;
      }
    }

    /** A change of any kind on the `plugins` table refetches the whole list, unfiltered. */
    method OnPluginsChange(kind: ChangeKind, reply: Reply<seq<Plugin>>)
      requires subscription.Some? && Delivers(subscription.value, kind)
      modifies this`plugins, this`loading, this`requests
      ensures plugins == Refreshed(old(plugins), reply)
      ensures !loading
      ensures requests == old(requests) + [Request(GET, PluginList(None))]
    {
      FetchPlugins(None, reply);
    }
  }

  /** Subscribing twice from no handle opens exactly one channel. */
  method SubscribeTwiceOpensOne(store: PluginsStore)
    requires store.Valid() && store.subscription == None
    modifies store
    ensures store.Valid()
    ensures store.subscription == Some(PluginsChannel) && store.liveChannels == 1
  {
    store.SubscribeToChanges();
    store.SubscribeToChanges();
  }

  /** Unsubscribing twice from any state leaves no handle and no live channel. */
  method UnsubscribeTwiceLeavesNone(store: PluginsStore)
    requires store.Valid()
    modifies store
    ensures store.Valid()
    ensures store.subscription == None && store.liveChannels == 0
  {
    store.UnsubscribeFromChanges();
    store.UnsubscribeFromChanges();
  }
}
