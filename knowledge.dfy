/**
 * The knowledge store: a cached list of knowledge bases refreshed wholesale
 * (mutations refetch instead of patching), point reads that bypass the cache,
 * a realtime channel on `knowledge_bases` and a single, unkeyed slot for a
 * channel on one knowledge base's files.
 */
module Knowledge {
  import opened Wrappers
  import opened Remote
  import opened Realtime

  datatype Owner = Owner(id: string, username: string, avatar: string)

  datatype KnowledgeBase = KnowledgeBase(
    id: string,
    name: string,
    description: string,
    isPublic: bool,
    author: Owner,
    createdAt: string,
    updatedAt: string)

  datatype FileStatus = Processing | Completed | Failed

  datatype KnowledgeFile = KnowledgeFile(
    id: string,
    fileName: string,
    filePath: string,
    fileSize: int,
    fileType: string,
    status: FileStatus,
    chunkCount: Option<int>,
    errorMessage: Option<string>,
    createdAt: string)

  /** The optional filter of `fetchKnowledgeBases`. */
  datatype BaseFilter = BaseFilter(isPublic: Option<bool>, authorId: Option<string>)

  /** The body of `createKnowledgeBase`. */
  datatype BaseDraft = BaseDraft(name: string, description: Option<string>, isPublic: bool)

  /** The body of `updateKnowledgeBase`. */
  datatype BasePatch = BasePatch(name: Option<string>, description: Option<string>, isPublic: Option<bool>)

  /** The remote procedures the store calls. */
  datatype Endpoint =
    | Bases(filter: Option<BaseFilter>)   // knowledge/bases, knowledge/bases?<filter>
    | Base(id: string)                    // knowledge/bases/<id>
    | BaseFiles(kbId: string)             // knowledge/bases/<kbId>/files

  datatype Request = Request(verb: Verb, endpoint: Endpoint)

  const BasesChannel := Channel("public:knowledge_bases", "knowledge_bases", AnyEvent, None)

  /** The channel on the files of one knowledge base. */
  function FilesChannel(kbId: string): Channel {
    Channel("public:knowledge_files:" + kbId, "knowledge_files", AnyEvent, Some("knowledge_base_id=eq." + kbId))
  }

  class KnowledgeStore {
    var knowledgeBases: seq<KnowledgeBase>
    var loading: bool
    var kbSubscription: Option<Channel>
    var fileSubscription: Option<Channel>
    /** Channels this store opened and has not removed. */
    ghost var liveChannels: nat
    /** The remote calls this store issued, oldest first. */
    ghost var requests: seq<Request>

    ghost predicate Valid()
      reads this
    {
      liveChannels == Live(kbSubscription) + Live(fileSubscription)
    }

    constructor ()
      ensures Valid()
      ensures knowledgeBases == [] && !loading && kbSubscription == None && fileSubscription == None
      ensures requests == []
    {
      knowledgeBases := [];
      loading := false;
      kbSubscription := None;
      fileSubscription := None;
      liveChannels := 0;
      requests := [];
    }

    method FetchKnowledgeBases(params: Option<BaseFilter>, reply: Reply<seq<KnowledgeBase>>)
      modifies this`knowledgeBases, this`loading, this`requests
      ensures knowledgeBases == Refreshed(old(knowledgeBases), reply)
      ensures !loading
      ensures requests == old(requests) + [Request(GET, Bases(params))]
    {
      loading := true;
      requests := requests + [Request(GET, Bases(params))];
      match reply {
        case Failure(_) =>
        case Success(data) =>
          knowledgeBases := data.GetOr([]);
      }
      loading := false;
    }

    /** Null when the call fails; `undefined` when it succeeds without a knowledge base. */
    method GetKnowledgeBaseById(id: string, reply: Reply<KnowledgeBase>) returns (r: Nullable<KnowledgeBase>)
      modifies this`requests
      ensures r == Null <==> reply.Failure?
      ensures reply.Success? ==> r == Defined(reply.data)
      ensures requests == old(requests) + [Request(GET, Base(id))]
    {
      requests := requests + [Request(GET, Base(id))];
      match reply {
        case Failure(_) => r := Null;
        case Success(data) => r := Defined(data);
      }
    }

    /** The empty list when the call fails; `undefined` when it succeeds without a file list. */
    method FetchKnowledgeFiles(kbId: string, reply: Reply<seq<KnowledgeFile>>) returns (r: Nullable<seq<KnowledgeFile>>)
      modifies this`requests
      ensures reply.Failure? ==> r == Present([])
      ensures reply.Success? ==> r == Defined(reply.data)
      ensures requests == old(requests) + [Request(GET, BaseFiles(kbId))]
    {
      requests := requests + [Request(GET, BaseFiles(kbId))];
      match reply {
        case Failure(_) => r := Present([]);
        case Success(data) => r := Defined(data);
      }
    }

    /** On success, one unfiltered refetch (whose reply is `refetch`) precedes the return. */
    method CreateKnowledgeBase(kb: BaseDraft, reply: Reply<KnowledgeBase>, refetch: Reply<seq<KnowledgeBase>>)
      returns (r: Nullable<KnowledgeBase>)
      modifies this`knowledgeBases, this`loading, this`requests
      ensures r == Null <==> reply.Failure?
      ensures reply.Failure? ==>
        && knowledgeBases == old(knowledgeBases)
        && loading == old(loading)
        && requests == old(requests) + [Request(POST, Bases(None))]
      ensures reply.Success? ==>
        && r == Defined(reply.data)
        && knowledgeBases == Refreshed(old(knowledgeBases), refetch)
        && !loading
        && requests == old(requests) + [Request(POST, Bases(None)), Request(GET, Bases(None))]
    {
      requests := requests + [Request(POST, Bases(None))];
      if reply.Failure? {
        return Null;
      }
      FetchKnowledgeBases(None, refetch);
      r := Defined(reply.data);
    }

    method UpdateKnowledgeBase(id: string, kb: BasePatch, reply: Reply<KnowledgeBase>, refetch: Reply<seq<KnowledgeBase>>)
      returns (r: Nullable<KnowledgeBase>)
      modifies this`knowledgeBases, this`loading, this`requests
      ensures r == Null <==> reply.Failure?
      ensures reply.Failure? ==>
        && knowledgeBases == old(knowledgeBases)
        && loading == old(loading)
        && requests == old(requests) + [Request(PATCH, Base(id))]
      ensures reply.Success? ==>
        && r == Defined(reply.data)
        && knowledgeBases == Refreshed(old(knowledgeBases), refetch)
        && !loading
        && requests == old(requests) + [Request(PATCH, Base(id)), Request(GET, Bases(None))]
    {
      requests := requests + [Request(PATCH, Base(id))];
      if reply.Failure? {
        return Null;
      }
      FetchKnowledgeBases(None, refetch);
      r := Defined(reply.data);
    }

    method DeleteKnowledgeBase(id: string, ack: Ack, refetch: Reply<seq<KnowledgeBase>>) returns (ok: bool)
      modifies this`knowledgeBases, this`loading, this`requests
      ensures ok <==> ack.Accepted?
      ensures !ok ==>
        && knowledgeBases == old(knowledgeBases)
        && loading == old(loading)
        && requests == old(requests) + [Request(DELETE, Base(id))]
      ensures ok ==>
        && knowledgeBases == Refreshed(old(knowledgeBases), refetch)
        && !loading
        && requests == old(requests) + [Request(DELETE, Base(id)), Request(GET, Bases(None))]
    {
      requests := requests + [Request(DELETE, Base(id))];
      if ack.Rejected? {
        return false;
      }
      FetchKnowledgeBases(None, refetch);
      ok := true;
    }

    method SubscribeToChanges()
      requires Valid()
      modifies this`kbSubscription, this`liveChannels
      ensures Valid()
      ensures kbSubscription == if old(kbSubscription).Some? then old(kbSubscription) else Some(BasesChannel)
      ensures liveChannels == old(liveChannels) + (if old(kbSubscription).None? then 1 else 0)
    {
      if kbSubscription.Some? {
        return;
      }
      kbSubscription := Some(BasesChannel);
      liveChannels := liveChannels + 1;
    }

    method UnsubscribeFromChanges()
      requires Valid()
      modifies this`kbSubscription, this`liveChannels
      ensures Valid()
      ensures kbSubscription == None
      ensures liveChannels == old(liveChannels) - Live(old(kbSubscription))
    {
      if kbSubscription.Some? {
        kbSubscription := None;
        liveChannels := liveChannels - 1;
      }
    }

    /** A change of any kind on `knowledge_bases` refetches the whole list, unfiltered. */
    method OnKnowledgeBasesChange(kind: ChangeKind, reply: Reply<seq<KnowledgeBase>>)
      requires kbSubscription.Some? && Delivers(kbSubscription.value, kind)
      modifies this`knowledgeBases, this`loading, this`requests
      ensures knowledgeBases == Refreshed(old(knowledgeBases), reply)
      ensures !loading
      ensures requests == old(requests) + [Request(GET, Bases(None))]
    {
      FetchKnowledgeBases(None, reply);
    }

    /**
     * Opens a channel on the files of `kbId` unless the single file slot is
     * taken, whichever knowledge base the live channel watches.
     */
    method SubscribeToFileChanges(kbId: string)
      requires Valid()
      modifies this`fileSubscription, this`liveChannels
      ensures Valid()
      ensures fileSubscription == if old(fileSubscription).Some? then old(fileSubscription) else Some(FilesChannel(kbId))
      ensures liveChannels == old(liveChannels) + (if old(fileSubscription).None? then 1 else 0)
    {
      if fileSubscription.Some? {
        return;
      }
      fileSubscription := Some(FilesChannel(kbId));
      liveChannels := liveChannels + 1;
    }

    method UnsubscribeFromFileChanges()
      requires Valid()
      modifies this`fileSubscription, this`liveChannels
      ensures Valid()
      ensures fileSubscription == None
      ensures liveChannels == old(liveChannels) - Live(old(fileSubscription))
    {
      if fileSubscription.Some? {
        fileSubscription := None;
        liveChannels := liveChannels - 1;
      }
    }
  }

  /**
   * Two file subscriptions for different knowledge bases, from an empty slot,
   * leave the first one's channel live, and only it.
   */
  method FileSlotIsNotKeyed(store: KnowledgeStore, a: string, b: string)
    requires store.Valid() && store.fileSubscription == None
    modifies store
    ensures store.Valid()
    ensures store.fileSubscription == Some(FilesChannel(a))
    ensures store.liveChannels == old(store.liveChannels) + 1
  {
    store.SubscribeToFileChanges(a);
    store.SubscribeToFileChanges(b);
  }
}
