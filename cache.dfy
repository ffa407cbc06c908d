/** The read-through cache of Discord objects: three stores of reference
    objects (channels, users, guilds) filled from a provider, a store of
    downloaded attachments keyed by URL, and the clean-up pass over it.
    The provider and the HTTP client are the environment: each answers
    from a function that the environment may change between calls, and
    keeps a ghost log of what it was asked. The cache is single-threaded. */
module Cache {
  import opened CacheTypes
  import opened CacheEviction

  /** One answer the provider gave, for one kind of object. */
  datatype Reply<Ch, Us, Gu, E> =
    | ChannelReply(id: string, channel: Result<Ch, E>)
    | UserReply(id: string, user: Result<Us, E>)
    | GuildReply(id: string, guild: Result<Gu, E>)

  /** The source of truth behind the cache: the Discord API or a mock of it. */
  class Provider<Ch, Us, Gu, E> {
    var channelAnswer: string -> Result<Ch, E>
    var userAnswer: string -> Result<Us, E>
    var guildAnswer: string -> Result<Gu, E>
    /** Every answer given so far, oldest first. */
    ghost var replies: seq<Reply<Ch, Us, Gu, E>>

    constructor (channelAnswer: string -> Result<Ch, E>, userAnswer: string -> Result<Us, E>,
                 guildAnswer: string -> Result<Gu, E>)
      ensures this.channelAnswer == channelAnswer && this.userAnswer == userAnswer
      ensures this.guildAnswer == guildAnswer && replies == []
    {
      this.channelAnswer := channelAnswer;
      this.userAnswer := userAnswer;
      this.guildAnswer := guildAnswer;
      replies := [];
    }

    method Channel(id: string) returns (r: Result<Ch, E>)
      modifies this`replies
      ensures r == channelAnswer(id)
      ensures replies == old(replies) + [ChannelReply(id, r)]
    {
      r := channelAnswer(id);
      replies := replies + [ChannelReply(id, r)];
    }

    method User(id: string) returns (r: Result<Us, E>)
      modifies this`replies
      ensures r == userAnswer(id)
      ensures replies == old(replies) + [UserReply(id, r)]
    {
      r := userAnswer(id);
      replies := replies + [UserReply(id, r)];
    }

    method Guild(id: string) returns (r: Result<Gu, E>)
      modifies this`replies
      ensures r == guildAnswer(id)
      ensures replies == old(replies) + [GuildReply(id, r)]
    {
      r := guildAnswer(id);
      replies := replies + [GuildReply(id, r)];
    }
  }

  /** The HTTP client: `GET url` and reading the whole body, as one step. */
  class Network {
    var respond: string -> HttpResult
    /** Every URL requested so far, oldest first. */
    ghost var requests: seq<string>

    constructor (respond: string -> HttpResult)
      ensures this.respond == respond && requests == []
    {
      this.respond := respond;
      requests := [];
    }

    method Get(url: string) returns (r: HttpResult)
      modifies this`requests
      ensures r == respond(url)
      ensures requests == old(requests) + [url]
    {
      r := respond(url);
      requests := requests + [url];
    }
  }

  class Cache<Ch, Us, Gu, E> {
    const provider: Provider<Ch, Us, Gu, E>
    var channels: map<string, Ch>
    var users: map<string, Us>
    var guilds: map<string, Gu>
    var attachments: map<string, Attachment>

    /** Failures are never cached: every stored reference object is an
        answer the provider gave successfully for that ID. */
    ghost predicate Valid()
      reads this, provider
    {
      && (forall id :: id in channels ==> ChannelReply(id, Success(channels[id])) in provider.replies)
      && (forall id :: id in users ==> UserReply(id, Success(users[id])) in provider.replies)
      && (forall id :: id in guilds ==> GuildReply(id, Success(guilds[id])) in provider.replies)
    }

    /** A cache over provider `p`; there is no cache without a provider. */
    constructor (p: Provider?<Ch, Us, Gu, E>)
      requires p != null
      ensures Valid() && provider == p
      ensures channels == map[] && users == map[] && guilds == map[] && attachments == map[]
    {
      provider := p;
      channels, users, guilds, attachments := map[], map[], map[], map[];
    }

    /** The channel `id`, from the store when present, otherwise from the
        provider; only a successful answer is stored. */
    method Channel(id: string) returns (r: Result<Ch, E>)
      requires Valid()
      modifies this`channels, provider`replies
      ensures Valid()
      ensures old(id in channels) ==>
        r == Success(old(channels)[id]) && channels == old(channels) && provider.replies == old(provider.replies)
      ensures old(id !in channels) ==>
        r == provider.channelAnswer(id) && provider.replies == old(provider.replies) + [ChannelReply(id, r)]
      ensures old(id !in channels) && r.Failure? ==> channels == old(channels)
      ensures old(id !in channels) && r.Success? ==> channels == old(channels)[id := r.value]
    {
      if id in channels {
        return Success(channels[id]);
      }
      var fetched := provider.Channel(id);
      if fetched.Failure? {
        return Failure(fetched.error);
      }
      channels := channels[id := fetched.value];
      return fetched;
    }

    /** The user `id`, read through the user store like Channel. */
    method User(id: string) returns (r: Result<Us, E>)
      requires Valid()
      modifies this`users, provider`replies
      ensures Valid()
      ensures old(id in users) ==>
        r == Success(old(users)[id]) && users == old(users) && provider.replies == old(provider.replies)
      ensures old(id !in users) ==>
        r == provider.userAnswer(id) && provider.replies == old(provider.replies) + [UserReply(id, r)]
      ensures old(id !in users) && r.Failure? ==> users == old(users)
      ensures old(id !in users) && r.Success? ==> users == old(users)[id := r.value]
    {
      if id in users {
        return Success(users[id]);
      }
      var fetched := provider.User(id);
      if fetched.Failure? {
        return Failure(fetched.error);
      }
      users := users[id := fetched.value];
      return fetched;
    }

    /** The guild `id`, read through the guild store like Channel. */
    method Guild(id: string) returns (r: Result<Gu, E>)
      requires Valid()
      modifies this`guilds, provider`replies
      ensures Valid()
      ensures old(id in guilds) ==>
        r == Success(old(guilds)[id]) && guilds == old(guilds) && provider.replies == old(provider.replies)
      ensures old(id !in guilds) ==>
        r == provider.guildAnswer(id) && provider.replies == old(provider.replies) + [GuildReply(id, r)]
      ensures old(id !in guilds) && r.Failure? ==> guilds == old(guilds)
      ensures old(id !in guilds) && r.Success? ==> guilds == old(guilds)[id := r.value]
    {
      if id in guilds {
        return Success(guilds[id]);
      }
      var fetched := provider.Guild(id);
      if fetched.Failure? {
        return Failure(fetched.error);
      }
      guilds := guilds[id := fetched.value];
      return fetched;
    }

    /** The attachment described by `at`. A hit marks the stored entry used
        at `now` and returns it without a request; a miss downloads it and
        stores it only when the download succeeds. */
    method Attachment(at: AttachmentRef, net: Network, now: int) returns (a: Attachment, err: Option<CacheError>)
      requires Valid()
      modifies this`attachments, net`requests
      ensures Valid()
      ensures old(at.url in attachments) ==>
        && err == None
        && attachments == old(attachments)[at.url := old(attachments)[at.url].(lastReference := now)]
        && a == attachments[at.url]
        && net.requests == old(net.requests)
      ensures old(at.url !in attachments) ==> net.requests == old(net.requests) + [at.url]
      ensures err.Some? ==> a == Placeholder(at) && attachments == old(attachments)
      ensures old(at.url !in attachments) ==>
        match net.respond(at.url)
        case TransportError(cause) => err == Some(RequestFailed(cause))
        case Response(status, body) =>
          if status != 200 then err == Some(GetFailed)
          else if body.Failure? then err == Some(IOError(body.error))
          else
            && err == None
            && a == Placeholder(at).(content := body.value, lastReference := now)
            && attachments == old(attachments)[at.url := a]
    {
      if at.url in attachments {
        a := attachments[at.url].(lastReference := now);
        attachments := attachments[at.url := a];
        return a, None;
      }
      a := Placeholder(at);
      var response := net.Get(at.url);
      if response.TransportError? {
        return a, Some(RequestFailed(response.cause));
      }
      if response.statusCode != 200 {
        return a, Some(GetFailed);
      }
      if response.body.Failure? {
        return a, Some(IOError(response.body.error));
      }
      a := a.(content := response.body.value, lastReference := now);
      attachments := attachments[at.url := a];
      return a, None;
    }

    /** Drops channel `id` from the store; reports Missing when it was not there. */
    method InvalidateChannel(id: string) returns (err: Option<CacheError>)
      requires Valid()
      modifies this`channels
      ensures Valid()
      ensures old(id in channels) ==> err == None && channels == old(channels) - {id}
      ensures old(id !in channels) ==> err == Some(Missing) && channels == old(channels)
    {
      if id !in channels {
        return Some(Missing);
      }
      channels := channels - {id};
      return None;
    }

    /** Drops user `id` from the store; reports Missing when it was not there. */
    method InvalidateUser(id: string) returns (err: Option<CacheError>)
      requires Valid()
      modifies this`users
      ensures Valid()
      ensures old(id in users) ==> err == None && users == old(users) - {id}
      ensures old(id !in users) ==> err == Some(Missing) && users == old(users)
    {
      if id !in users {
        return Some(Missing);
      }
      users := users - {id};
      return None;
    }

    /** Drops guild `id` from the store; reports Missing when it was not there. */
    method InvalidateGuild(id: string) returns (err: Option<CacheError>)
      requires Valid()
      modifies this`guilds
      ensures Valid()
      ensures old(id in guilds) ==> err == None && guilds == old(guilds) - {id}
      ensures old(id !in guilds) ==> err == Some(Missing) && guilds == old(guilds)
    {
      if id !in guilds {
        return Some(Missing);
      }
      guilds := guilds - {id};
      return None;
    }

    /** One clean-up pass at time `now`, visiting the attachment keys in
        `order` (Go's unspecified map order). The first keys visited, as many
        as the store exceeds the threshold by, are dropped whatever their
        age; every other stale entry is dropped too. */
    method Clean(order: seq<string>, now: int)
      requires Valid()
      requires IsIterationOrder(order, attachments)
      modifies this`attachments
      ensures Valid()
      ensures attachments == Cleaned(old(attachments), order, now)
      ensures |old(attachments)| > AttachmentPruneThreshold ==> |attachments| <= AttachmentPruneThreshold
    {
      ghost var m := attachments;
      SweptAll(m, order, now);
      var delfirst := 0;
      if |attachments| > AttachmentPruneThreshold {
        delfirst := |attachments| - AttachmentPruneThreshold;
      }
      var i := 0;
      while i < |order|
        invariant 0 <= i <= |order|
        invariant delfirst == PruneCount(|m|)
        invariant attachments == Swept(m, order, i, now)
      {
        var key := order[i];
        SweptStep(m, order, i, now);
        var val := attachments[key];
        if i < delfirst {
          attachments := attachments - {key};
        } else if Stale(val, now) {
          attachments := attachments - {key};
        }
        i := i + 1;
      }
      CleanedSize(m, order, now);
    }
  }

  /** Two lookups of the same channel: once the first has succeeded the
      second is a hit returning the same snapshot, and the provider is asked
      at most once, exactly once when the channel was not cached. */
  method LookupTwice<Ch, Us, Gu, E>(c: Cache<Ch, Us, Gu, E>, id: string)
    returns (first: Result<Ch, E>, second: Result<Ch, E>)
    requires c.Valid()
    modifies c`channels, c.provider`replies
    ensures c.Valid()
    ensures old(id in c.channels) ==> first == Success(old(c.channels)[id])
    ensures old(id !in c.channels) ==> first == c.provider.channelAnswer(id)
    ensures first.Success? ==> second == first
    ensures first.Success? ==> |c.provider.replies| <= |old(c.provider.replies)| + 1
    ensures old(id !in c.channels) && first.Success? ==> |c.provider.replies| == |old(c.provider.replies)| + 1
  {
    first := c.Channel(id);
    second := c.Channel(id);
  }

  /** A failed lookup is not cached: asking again goes back to the provider. */
  method RetryAfterFailure<Ch, Us, Gu, E>(c: Cache<Ch, Us, Gu, E>, id: string)
    returns (first: Result<Ch, E>, second: Result<Ch, E>)
    requires c.Valid() && id !in c.channels
    modifies c`channels, c.provider`replies
    ensures c.Valid()
    ensures first == c.provider.channelAnswer(id)
    ensures first.Failure? ==>
      c.provider.replies == old(c.provider.replies) + [ChannelReply(id, first), ChannelReply(id, second)]
  {
    first := c.Channel(id);
    second := c.Channel(id);
  }

  /** Invalidating a cached channel makes the next lookup a miss, which asks
      the provider exactly once and returns its current answer. */
  method InvalidateThenLookup<Ch, Us, Gu, E>(c: Cache<Ch, Us, Gu, E>, id: string)
    returns (err: Option<CacheError>, r: Result<Ch, E>)
    requires c.Valid() && id in c.channels
    modifies c`channels, c.provider`replies
    ensures c.Valid() && err == None
    ensures r == c.provider.channelAnswer(id)
    ensures c.provider.replies == old(c.provider.replies) + [ChannelReply(id, r)]
  {
    err := c.InvalidateChannel(id);
    r := c.Channel(id);
  }

  /** Fetching the same URL twice: after a successful download the second
      call makes no request and returns the content stamped with a later or
      equal time; after a failed one it requests the URL again. */
  method FetchTwice<Ch, Us, Gu, E>(c: Cache<Ch, Us, Gu, E>, at: AttachmentRef, net: Network, t1: int, t2: int)
    returns (first: Attachment, second: Attachment, err1: Option<CacheError>, err2: Option<CacheError>)
    requires c.Valid() && at.url !in c.attachments && t1 <= t2
    modifies c`attachments, net`requests
    ensures c.Valid()
    ensures err1 == None <==>
      net.respond(at.url).Response? && net.respond(at.url).statusCode == 200 && net.respond(at.url).body.Success?
    ensures err1 == None ==> first.content == net.respond(at.url).body.value
    ensures err1 == None ==>
      && err2 == None && net.requests == old(net.requests) + [at.url]
      && second.content == first.content && first.lastReference <= second.lastReference
    ensures err1.Some? ==> net.requests == old(net.requests) + [at.url, at.url]
  {
    first, err1 := c.Attachment(at, net, t1);
    second, err2 := c.Attachment(at, net, t2);
  }

  /** A fresh cache whose provider knows channel "42": looking it up twice
      returns the same channel both times and asks the provider once. A
      provider that always fails is asked on every attempt. */
  method ChannelScenarios()
  {
    var p := new Provider<int, int, int, string>(
      id => if id == "42" then Success(7) else Failure("unknown channel"),
      id => Failure("no users"), id => Failure("no guilds"));
    var c := new Cache(p);
    var first, second := LookupTwice(c, "42");
    assert first == Success(7) && second == Success(7);
    assert |p.replies| == 1;

    var q := new Provider<int, int, int, string>(id => Failure("down"), id => Failure("down"), id => Failure("down"));
    var d := new Cache(q);
    var r1, r2 := RetryAfterFailure(d, "42");
    assert |q.replies| == 2;
  }
}
