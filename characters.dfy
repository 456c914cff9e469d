/**
 * The characters store: server records normalised by `mapCharacter`, a
 * paginated list refreshed wholesale, create/update/delete calls that rethrow,
 * and two independent realtime channels (the `characters` table, and profile
 * updates that matter only when characters are cached).
 */
module Characters {
  import opened Wrappers
  import opened Remote
  import opened Realtime

  datatype Author = Author(id: string, uid: string, name: string, avatar: Option<string>)

  /**
   * A character as the server returns it. Optional string fields are `None`
   * when missing or null; the server may use either of two names for several
   * fields (`bio`/`signature`, `originPrompt`/`persona`, `avatar`/`avatarUrl`).
   */
  datatype RawCharacter = RawCharacter(
    id: string,
    name: string,
    bio: Option<string>,
    signature: Option<string>,
    originPrompt: Option<string>,
    persona: Option<string>,
    avatar: Option<string>,
    avatarUrl: Option<string>,
    isPublic: bool,
    creatorId: Option<string>,
    authorId: Option<string>,
    createdAt: string,
    updatedAt: string,
    author: Option<Author>)

  /** A character as cached and handed to callers. */
  datatype Character = Character(
    id: string,
    name: string,
    signature: string,
    persona: string,
    avatarUrl: Option<string>,
    isPublic: bool,
    creatorId: Option<string>,
    authorId: Option<string>,
    createdAt: string,
    updatedAt: string,
    author: Option<Author>)

  datatype Pagination = Pagination(page: int, limit: int, total: int, totalPages: int, hasNext: bool, hasPrev: bool)

  /** The payload of a list fetch: the server records and the pagination descriptor (absent reads as null). */
  datatype Listing = Listing(characters: seq<RawCharacter>, pagination: Option<Pagination>)

  /** The parameters of `fetchCharacters`; the default is all absent. */
  datatype FetchParams = FetchParams(page: Option<int>, limit: Option<int>, search: Option<string>)

  const DefaultParams := FetchParams(None, None, None)

  /** One query-string entry; the text encoding of the entries is not modelled. */
  datatype QueryParam = Page(n: int) | Limit(n: int) | Search(text: string)

  /** The fields of a `Partial<Character>` that create and update send. */
  datatype CharacterDraft = CharacterDraft(
    name: Option<string>,
    signature: Option<string>,
    avatarUrl: Option<string>,
    persona: Option<string>,
    isPublic: Option<bool>)

  /** The request body of create and update, under the server's field names. */
  datatype CharacterBody = CharacterBody(
    name: Option<string>,
    bio: Option<string>,
    avatar: Option<string>,
    originPrompt: Option<string>,
    isPublic: Option<bool>)

  /** What create, update and delete rethrow. */
  datatype CharacterError =
    | RemoteError(message: string)   // the error of the call
    | MalformedReply                 // a TypeError: the reply has no `data.data` to map

  datatype Endpoint =
    | CharacterList(query: seq<QueryParam>)   // characters?<query>
    | CharacterCollection                     // characters
    | CharacterItem(id: string)               // characters/<id>

  datatype Request = Request(verb: Verb, endpoint: Endpoint, body: Option<CharacterBody>)

  /** JavaScript truthiness of an optional string: present and not empty. */
  predicate Truthy(s: Option<string>) {
    s.Some? && s.value != ""
  }

  /** JavaScript truthiness of an optional number: present and not zero. */
  predicate TruthyNumber(n: Option<int>) {
    n.Some? && n.value != 0
  }

  /** JavaScript `a || b` on optional strings. */
  function Or(a: Option<string>, b: Option<string>): Option<string> {
    if Truthy(a) then a else b
  }

  /** `mapCharacter`: the store's normalisation of a server record. */
  function MapCharacter(raw: RawCharacter): (c: Character)
    ensures c.id == raw.id && c.name == raw.name
    ensures c.isPublic == raw.isPublic && c.authorId == raw.authorId
    ensures c.createdAt == raw.createdAt && c.updatedAt == raw.updatedAt
    ensures Truthy(raw.bio) ==> c.signature == raw.bio.value
    ensures !Truthy(raw.bio) && Truthy(raw.signature) ==> c.signature == raw.signature.value
    ensures !Truthy(raw.bio) && !Truthy(raw.signature) ==> c.signature == ""
    ensures Truthy(raw.originPrompt) ==> c.persona == raw.originPrompt.value
    ensures !Truthy(raw.originPrompt) && Truthy(raw.persona) ==> c.persona == raw.persona.value
    ensures !Truthy(raw.originPrompt) && !Truthy(raw.persona) ==> c.persona == ""
    ensures Truthy(raw.avatar) ==> c.avatarUrl == raw.avatar
    ensures !Truthy(raw.avatar) && Truthy(raw.avatarUrl) ==> c.avatarUrl == raw.avatarUrl
    ensures !Truthy(raw.avatar) && !Truthy(raw.avatarUrl) ==> c.avatarUrl == None
    ensures Truthy(raw.creatorId) ==> c.creatorId == raw.creatorId
    ensures !Truthy(raw.creatorId) ==> c.creatorId == raw.authorId
    ensures c.author.Some? <==> raw.author.Some?
    ensures c.author.Some? ==> c.author == raw.author
  {
    Character(
      raw.id,
      raw.name,
      Or(Or(raw.bio, raw.signature), Some("")).GetOr(""),
      Or(Or(raw.originPrompt, raw.persona), Some("")).GetOr(""),
      Or(Or(raw.avatar, raw.avatarUrl), None),
      raw.isPublic,
      Or(raw.creatorId, raw.authorId),
      raw.authorId,
      raw.createdAt,
      raw.updatedAt,
      if raw.author.Some? then
        Some(Author(raw.author.value.id, raw.author.value.uid, raw.author.value.name, raw.author.value.avatar))
      else None)
  }

  /** `characters.map(mapCharacter)`. */
  function MapCharacters(raws: seq<RawCharacter>): (cs: seq<Character>)
    ensures |cs| == |raws|
    ensures forall i :: 0 <= i < |raws| ==> cs[i] == MapCharacter(raws[i])
  {
    seq(|raws|, i requires 0 <= i < |raws| => MapCharacter(raws[i]))
  }

  /** The record as the store holds it, read back under the store's own field names. */
  function AsRaw(c: Character): RawCharacter {
    RawCharacter(c.id, c.name, None, Some(c.signature), None, Some(c.persona), None, c.avatarUrl,
                 c.isPublic, c.creatorId, c.authorId, c.createdAt, c.updatedAt, c.author)
  }

  /** Mapping is a normalisation: a record already mapped maps to itself. */
  lemma MapCharacterIdempotent(raw: RawCharacter)
    ensures MapCharacter(AsRaw(MapCharacter(raw))) == MapCharacter(raw)
  {
  }

  /** Position of each kind of entry in the query string. */
  function Rank(q: QueryParam): nat {
    match q
    case Page(_) => 0
    case Limit(_) => 1
    case Search(_) => 2
  }

  /** The query entries of `fetchCharacters`: page, limit and search, in that order, each only when truthy. */
  function CharacterQuery(p: FetchParams): (q: seq<QueryParam>)
    ensures forall n :: Page(n) in q <==> TruthyNumber(p.page) && n == p.page.value
    ensures forall n :: Limit(n) in q <==> TruthyNumber(p.limit) && n == p.limit.value
    ensures forall s :: Search(s) in q <==> Truthy(p.search) && s == p.search.value
    ensures forall i, j :: 0 <= i < j < |q| ==> Rank(q[i]) < Rank(q[j])
  {
    (if TruthyNumber(p.page) then [Page(p.page.value)] else [])
    + (if TruthyNumber(p.limit) then [Limit(p.limit.value)] else [])
    + (if Truthy(p.search) then [Search(p.search.value)] else [])
  }

  /** The body create and update send: the store's field names renamed to the server's. */
  function RequestBody(d: CharacterDraft): (b: CharacterBody)
    ensures b.name == d.name && b.isPublic == d.isPublic
    ensures b.bio == d.signature && b.originPrompt == d.persona && b.avatar == d.avatarUrl
  {
    CharacterBody(d.name, d.signature, d.avatarUrl, d.persona, d.isPublic)
  }

  /**
   * A record the server built from a request body (under its own field names
   * only) maps back to the fields the caller sent; an empty string comes back
   * as the empty default (or null for the avatar).
   */
  lemma BodyRoundTrip(d: CharacterDraft, raw: RawCharacter)
    requires raw.bio == RequestBody(d).bio && raw.signature.None?
    requires raw.originPrompt == RequestBody(d).originPrompt && raw.persona.None?
    requires raw.avatar == RequestBody(d).avatar && raw.avatarUrl.None?
    ensures MapCharacter(raw).signature == d.signature.GetOr("")
    ensures MapCharacter(raw).persona == d.persona.GetOr("")
    ensures MapCharacter(raw).avatarUrl == if Truthy(d.avatarUrl) then d.avatarUrl else None
  {
  }

  /** The result of create and update: a mapped record, or the error they rethrow. */
  function Saved(reply: Reply<RawCharacter>): (r: Result<Character, CharacterError>)
    ensures r.Ok? <==> reply.Success? && reply.data.Some?
    ensures r.Ok? ==> r.value == MapCharacter(reply.data.value)
    ensures reply.Failure? ==> r == Err(RemoteError(reply.message))
    ensures reply.Success? && reply.data.None? ==> r == Err(MalformedReply)
  {
    match reply
    case Failure(message) => Err(RemoteError(message))
    case Success(None) => Err(MalformedReply)
    case Success(Some(raw)) => Ok(MapCharacter(raw))
  }

  const CharactersChannel := Channel("public:characters", "characters", AnyEvent, None)
  const ProfilesChannel := Channel("public:profiles-for-characters", "profiles", UpdateOnly, None)

  class CharacterStore {
    var characters: seq<Character>
    var pagination: Option<Pagination>
    var loading: bool
    var channel: Option<Channel>
    var channelProfiles: Option<Channel>
    /** Channels this store opened and has not removed. */
    ghost var liveChannels: nat
    /** The remote calls this store issued, oldest first. */
    ghost var requests: seq<Request>

    ghost predicate Valid()
      reads this
    {
      liveChannels == Live(channel) + Live(channelProfiles)
    }

    constructor ()
      ensures Valid()
      ensures characters == [] && pagination == None && !loading
      ensures channel == None && channelProfiles == None && requests == []
    {
      characters := [];
      pagination := None;
      loading := false;
      channel := None;
      channelProfiles := None;
      liveChannels := 0;
      requests := [];
    }

    /**
     * A reply without a list to map (`Success(None)`) throws inside the
     * `try` and is handled like a failed call.
     */
    method FetchCharacters(params: FetchParams, reply: Reply<Listing>)
      modifies this`characters, this`pagination, this`loading, this`requests
      ensures reply.Success? && reply.data.Some? ==>
        characters == MapCharacters(reply.data.value.characters) && pagination == reply.data.value.pagination
      ensures !(reply.Success? && reply.data.Some?) ==>
        characters == old(characters) && pagination == old(pagination)
      ensures !loading
      ensures requests == old(requests) + [Request(GET, CharacterList(CharacterQuery(params)), None)]
    {
      loading := true;
      var query := CharacterQuery(params);
      requests := requests + [Request(GET, CharacterList(query), None)];
      match reply {
        case Failure(_) =>
        case Success(None) =>
        case Success(Some(listing)) =>
          characters := MapCharacters(listing.characters);
          pagination := listing.pagination;
      }
      loading := false;
    }

    method GetCharacter(id: string, reply: Reply<RawCharacter>) returns (r: Option<Character>)
      modifies this`requests
      ensures r.Some? <==> reply.Success? && reply.data.Some?
      ensures r.Some? ==> r.value == MapCharacter(reply.data.value)
      ensures requests == old(requests) + [Request(GET, CharacterItem(id), None)]
    {
      requests := requests + [Request(GET, CharacterItem(id), None)];
      match reply {
        case Success(Some(raw)) => r := Some(MapCharacter(raw));
        case _ => r := None;
      }
    }

    method CreateCharacter(d: CharacterDraft, reply: Reply<RawCharacter>) returns (r: Result<Character, CharacterError>)
      modifies this`requests
      ensures r == Saved(reply)
      ensures requests == old(requests) + [Request(POST, CharacterCollection, Some(RequestBody(d)))]
    {
      requests := requests + [Request(POST, CharacterCollection, Some(RequestBody(d)))];
      r := Saved(reply);
    }

    method UpdateCharacter(id: string, d: CharacterDraft, reply: Reply<RawCharacter>) returns (r: Result<Character, CharacterError>)
      modifies this`requests
      ensures r == Saved(reply)
      ensures requests == old(requests) + [Request(PUT, CharacterItem(id), Some(RequestBody(d)))]
    {
      requests := requests + [Request(PUT, CharacterItem(id), Some(RequestBody(d)))];
      r := Saved(reply);
    }

    /** On success, one refetch with the default parameters (whose reply is `refetch`). */
    method DeleteCharacter(id: string, ack: Ack, refetch: Reply<Listing>) returns (r: Result<(), CharacterError>)
      modifies this`characters, this`pagination, this`loading, this`requests
      ensures r.Err? <==> ack.Rejected?
      ensures ack.Rejected? ==>
        && r == Err(RemoteError(ack.message))
        && characters == old(characters) && pagination == old(pagination) && loading == old(loading)
        && requests == old(requests) + [Request(DELETE, CharacterItem(id), None)]
      ensures ack.Accepted? ==>
        && (refetch.Success? && refetch.data.Some? ==>
              characters == MapCharacters(refetch.data.value.characters) && pagination == refetch.data.value.pagination)
        && (!(refetch.Success? && refetch.data.Some?) ==>
              characters == old(characters) && pagination == old(pagination))
        && !loading
        && requests == old(requests) + [Request(DELETE, CharacterItem(id), None), Request(GET, CharacterList([]), None)]
    {
      requests := requests + [Request(DELETE, CharacterItem(id), None)];
      if ack.Rejected? {
        return Err(RemoteError(ack.message));
      }
      assert CharacterQuery(DefaultParams) == [];
      FetchCharacters(DefaultParams, refetch);
      r := Ok(());
    }

    method SubscribeToChanges()
      requires Valid()
      modifies this`channel, this`channelProfiles, this`liveChannels
      ensures Valid()
      ensures channel == if old(channel).Some? then old(channel) else Some(CharactersChannel)
      ensures channelProfiles == if old(channelProfiles).Some? then old(channelProfiles) else Some(ProfilesChannel)
      ensures liveChannels == old(liveChannels) + (if old(channel).None? then 1 else 0)
                                                + (if old(channelProfiles).None? then 1 else 0)
    {
      if channel.None? {
        channel := Some(CharactersChannel);
        liveChannels := liveChannels + 1;
      }
      if channelProfiles.None? {
        channelProfiles := Some(ProfilesChannel);
        liveChannels := liveChannels + 1;
      }
    }

    method UnsubscribeFromChanges()
      requires Valid()
      modifies this`channel, this`channelProfiles, this`liveChannels
      ensures Valid()
      ensures channel == None && channelProfiles == None
      ensures liveChannels == old(liveChannels) - Live(old(channel)) - Live(old(channelProfiles))
    {
      if channel.Some? {
        channel := None;
        liveChannels := liveChannels - 1;
      }
      if channelProfiles.Some? {
        channelProfiles := None;
        liveChannels := liveChannels - 1;
      }
    }

    /** Any change on the `characters` table refetches with the default parameters. */
    method OnCharactersChange(kind: ChangeKind, reply: Reply<Listing>)
      requires channel.Some? && Delivers(channel.value, kind)
      modifies this`characters, this`pagination, this`loading, this`requests
      ensures reply.Success? && reply.data.Some? ==>
        characters == MapCharacters(reply.data.value.characters) && pagination == reply.data.value.pagination
      ensures !(reply.Success? && reply.data.Some?) ==>
        characters == old(characters) && pagination == old(pagination)
      ensures !loading
      ensures requests == old(requests) + [Request(GET, CharacterList([]), None)]
    {
      assert CharacterQuery(DefaultParams) == [];
      FetchCharacters(DefaultParams, reply);
    }

    /** A profile update refetches with the default parameters only when characters are cached. */
    method OnProfilesUpdate(reply: Reply<Listing>)
      requires channelProfiles.Some? && Delivers(channelProfiles.value, Update)
      modifies this`characters, this`pagination, this`loading, this`requests
      ensures old(characters) == [] ==>
        && characters == old(characters) && pagination == old(pagination) && loading == old(loading)
        && requests == old(requests)
      ensures old(characters) != [] ==>
        && (reply.Success? && reply.data.Some? ==>
              characters == MapCharacters(reply.data.value.characters) && pagination == reply.data.value.pagination)
        && (!(reply.Success? && reply.data.Some?) ==>
              characters == old(characters) && pagination == old(pagination))
        && !loading
        && requests == old(requests) + [Request(GET, CharacterList([]), None)]
    {
      if |characters| > 0 {
        assert CharacterQuery(DefaultParams) == [];
        FetchCharacters(DefaultParams, reply);
      }
    }
  }
}
