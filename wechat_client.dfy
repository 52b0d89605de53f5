/** The WeChat-Work API client of the notifier (src/core/wechat.js): the access-token cache,
    the message body of `message/send`, and the member directory gathered across departments.
    HTTP replies are parameters; only the branching on their fields is modelled. */
module WeChatClient {
  import opened Wrappers
  import opened Text

  const DefaultApiBase: string := "https://qyapi.weixin.qq.com"

  /** What came back from one HTTP call: a transport failure, or a JSON body with `errcode`,
      `errmsg` and the call's own payload (fields may be absent). */
  datatype Reply<T> =
    | NetworkError(message: string)
    | Body(errcode: Option<int>, errmsg: Option<string>, payload: T)

  /** `${value}` of a possibly absent field. */
  function ShowText(v: Option<string>): string { if v.Some? then v.value else "undefined" }
  function ShowInt(v: Option<int>): string { if v.Some? then IntToString(v.value) else "undefined" }

  /** The error thrown for a body whose errcode is not 0, or the transport error itself. */
  function Failure<T>(what: string, reply: Reply<T>): (m: string)
  {
    match reply
    case NetworkError(message) => message
    case Body(errcode, errmsg, _) => what + "失败: " + ShowText(errmsg) + " (错误码: " + ShowInt(errcode) + ")"
  }

  predicate Succeeded<T>(reply: Reply<T>)
  {
    reply.Body? && reply.errcode == Some(0)
  }

  // ---------------------------------------------------------------------------
  // Access tokens
  // ---------------------------------------------------------------------------

  /** The gettoken payload: `access_token` and `expires_in` (seconds). */
  datatype TokenPayload = TokenPayload(accessToken: string, expiresIn: Option<int>)

  /** A cache entry: the token and the millisecond time until which it is used. */
  datatype CachedToken = CachedToken(token: string, expires: int)

  function CacheKey(corpid: string, corpsecret: string): string
  {
    corpid + "_" + corpsecret
  }

  /** A given corpid without '_' fixes both halves of the cache key. */
  lemma CacheKeyInjective(c1: string, s1: string, c2: string, s2: string)
    requires '_' !in c1 && '_' !in c2
    requires CacheKey(c1, s1) == CacheKey(c2, s2)
    ensures c1 == c2 && s1 == s2
  {
    var k := CacheKey(c1, s1);
    SplitAfterPiece(c1, '_', s1);
    SplitAfterPiece(c2, '_', s2);
    assert c1 == Split(k, '_')[0] == c2;
    assert s1 == k[|c1| + 1..] == s2;
  }

  /** A corpid containing '_' lets two different credential pairs share one cache entry. */
  lemma CacheKeyCollision()
    ensures CacheKey("a_b", "c") == CacheKey("a", "b_c")
  {
  }

  /** The expiry stored after a fetch at time `now`: `expires_in` seconds (7200 when absent or 0)
      less five minutes. */
  function ExpiryAfter(now: int, expiresIn: Option<int>): (e: int)
    ensures expiresIn.None? || expiresIn == Some(0) ==> e == now + 6900000
    ensures expiresIn.Some? && expiresIn.value != 0 ==> e == now + expiresIn.value * 1000 - 300000
  {
    var seconds := if expiresIn.None? || expiresIn.value == 0 then 7200 else expiresIn.value;
    now + seconds * 1000 - 300000
  }

  /** The cache answers for `key` at `now`. */
  predicate Fresh(cache: map<string, CachedToken>, key: string, now: int)
  {
    key in cache && cache[key].expires > now
  }

  /** The outcome of `getToken` on a cache miss whose reply is `reply`, fetched at `later`. */
  function Fetched(cache: map<string, CachedToken>, key: string, later: int, reply: Reply<TokenPayload>)
    : (r: (Result<string, string>, map<string, CachedToken>))
    ensures r.0.Ok? <==> Succeeded(reply)
    ensures !Succeeded(reply) ==> r.1 == cache && r.0 == Err(Failure("获取token", reply))
    ensures Succeeded(reply) ==>
      r.0 == Ok(reply.payload.accessToken)
      && r.1 == cache[key := CachedToken(reply.payload.accessToken, ExpiryAfter(later, reply.payload.expiresIn))]
  {
    if !Succeeded(reply) then (Err(Failure("获取token", reply)), cache)
    else
      var p := reply.payload;
      (Ok(p.accessToken), cache[key := CachedToken(p.accessToken, ExpiryAfter(later, p.expiresIn))])
  }

  /** `getToken` as a whole: the cached token when the entry is fresh at `now`, else the fetch. */
  function TokenStep(cache: map<string, CachedToken>, key: string, now: int, later: int, reply: Reply<TokenPayload>)
    : (r: (Result<string, string>, map<string, CachedToken>))
    ensures Fresh(cache, key, now) ==> r == (Ok(cache[key].token), cache)
    ensures !Fresh(cache, key, now) ==> r == Fetched(cache, key, later, reply)
  {
    if Fresh(cache, key, now) then (Ok(cache[key].token), cache) else Fetched(cache, key, later, reply)
  }

  /** After a successful fetch the entry is fresh until its expiry: with `expires_in` above
      300 seconds, a call at the fetch time itself is answered from the cache. */
  lemma FetchedThenFresh(cache: map<string, CachedToken>, key: string, later: int, reply: Reply<TokenPayload>)
    requires Succeeded(reply)
    requires reply.payload.expiresIn.None? || reply.payload.expiresIn.value > 300
    ensures Fresh(Fetched(cache, key, later, reply).1, key, later)
    ensures Fetched(cache, key, later, reply).1[key].token == reply.payload.accessToken
  {
  }

  // ---------------------------------------------------------------------------
  // Messages
  // ---------------------------------------------------------------------------

  /** `touser` as the caller passes it: an array of ids or a ready-made string. */
  datatype Recipients = Ids(ids: seq<string>) | Plain(text: string)

  /** The JSON body of `message/send`. */
  datatype MessageBody = MessageBody(touser: string, msgtype: string, agentid: int, content: string)

  function BuildMessageBody(agentid: int, touser: Recipients, message: string): (b: MessageBody)
    ensures b.msgtype == "text" && b.agentid == agentid && b.content == message
    ensures touser.Plain? ==> b.touser == touser.text
    ensures touser.Ids? && |touser.ids| >= 1 && (forall k :: 0 <= k < |touser.ids| ==> '|' !in touser.ids[k])
            ==> Split(b.touser, '|') == touser.ids
  {
    match touser
    case Ids(ids) =>
      assert (|ids| >= 1 && forall k :: 0 <= k < |ids| ==> '|' !in ids[k]) ==> Split(Join(ids, "|"), '|') == ids by {
        if |ids| >= 1 && forall k :: 0 <= k < |ids| ==> '|' !in ids[k] {
          SplitJoin(ids, '|');
        }
      }
      MessageBody(Join(ids, "|"), "text", agentid, message)
    case Plain(text) => MessageBody(text, "text", agentid, message)
  }

  /** The message/send payload besides errcode and errmsg: the message id and the user, party
      and tag lists ('|'-separated) the platform did not deliver to. Absent fields are None. */
  datatype SendPayload = SendPayload(msgid: Option<string>, invaliduser: Option<string>,
                                     invalidparty: Option<string>, invalidtag: Option<string>)

  /** A POST the client makes: the URL and the body. */
  datatype Post = Post(url: string, body: MessageBody)

  // ---------------------------------------------------------------------------
  // Directory
  // ---------------------------------------------------------------------------

  datatype Department = Department(id: int, name: string)
  datatype Member = Member(userid: string, name: string)

  /** One element of `getAllUsers`' result. */
  datatype Entry = Entry(userid: string, name: string, department: string)

  /** The members of one department, tagged with its name, in list order. */
  function Tag(users: seq<Member>, dept: Department): (r: seq<Entry>)
    ensures |r| == |users|
    ensures forall k :: 0 <= k < |r| ==> r[k] == Entry(users[k].userid, users[k].name, dept.name)
  {
    if |users| == 0 then [] else [Entry(users[0].userid, users[0].name, dept.name)] + Tag(users[1..], dept)
  }

  /** Every member of every department in visiting order, or the error of the first department
      whose user list could not be read. An absent `userlist` is an empty list. */
  function Stream(depts: seq<Department>, users: int -> Reply<Option<seq<Member>>>): Result<seq<Entry>, string>
  {
    if |depts| == 0 then Ok([])
    else
      var last := depts[|depts| - 1];
      var front :- Stream(depts[..|depts| - 1], users);
      var reply := users(last.id);
      if !Succeeded(reply) then Err(Failure("获取成员列表", reply))
      else Ok(front + Tag(reply.payload.GetOr([]), last))
  }

  function UserIds(s: seq<Entry>): set<string>
  {
    set e | e in s :: e.userid
  }

  /** The dedup `getAllUsers` performs: each entry whose userid was not seen before. */
  function Dedup(s: seq<Entry>): (r: seq<Entry>)
    ensures |r| <= |s|
  {
    if |s| == 0 then []
    else
      var front := Dedup(s[..|s| - 1]);
      if s[|s| - 1].userid in UserIds(front) then front else front + [s[|s| - 1]]
  }

  /** Position `i` holds the first appearance of its userid. */
  predicate IsFirst(s: seq<Entry>, i: int)
    requires 0 <= i < |s|
  {
    forall j :: 0 <= j < i ==> s[j].userid != s[i].userid
  }

  /** The reference definition: the entries at first appearances, in order. */
  function Firsts(s: seq<Entry>): seq<Entry>
  {
    if |s| == 0 then []
    else Firsts(s[..|s| - 1]) + (if IsFirst(s, |s| - 1) then [s[|s| - 1]] else [])
  }

  /** Deduplication keeps exactly the userids it was given. */
  lemma {:induction false} DedupIds(s: seq<Entry>)
    ensures UserIds(Dedup(s)) == UserIds(s)
  {
    if |s| > 0 {
      var p := s[..|s| - 1];
      DedupIds(p);
      assert s == p + [s[|s| - 1]];
      assert UserIds(s) == UserIds(p) + {s[|s| - 1].userid};
    }
  }

  /** No userid appears twice in the result. */
  lemma {:induction false} DedupUnique(s: seq<Entry>)
    ensures forall i, j :: 0 <= i < j < |Dedup(s)| ==> Dedup(s)[i].userid != Dedup(s)[j].userid
  {
    if |s| > 0 {
      var p := s[..|s| - 1];
      DedupUnique(p);
      var front := Dedup(p);
      if s[|s| - 1].userid !in UserIds(front) {
        var r := front + [s[|s| - 1]];
        forall i, j | 0 <= i < j < |r| ensures r[i].userid != r[j].userid {
          if j == |front| {
            assert r[i] in front;
          }
        }
      }
    }
  }

  /** The dedup is the order-preserving selection of first appearances, so every entry carries
      the department in which its userid was first seen. */
  lemma {:induction false} DedupIsFirsts(s: seq<Entry>)
    ensures Dedup(s) == Firsts(s)
  {
    if |s| > 0 {
      var p := s[..|s| - 1];
      var e := s[|s| - 1];
      DedupIsFirsts(p);
      DedupIds(p);
      if !IsFirst(s, |s| - 1) {
        var j :| 0 <= j < |s| - 1 && s[j].userid == e.userid;
        assert p[j] == s[j];
        assert p[j] in p;
      }
    }
  }

  /** The client object: its API base and the token cache. */
  class WeChatService {
    const apiBase: string
    var tokenCache: map<string, CachedToken>

    /** `new WeChatService(apiBase)`, the base defaulting when not given. */
    constructor (base: Option<string>)
      ensures apiBase == base.GetOr(DefaultApiBase) && tokenCache == map[]
    {
      apiBase := base.GetOr(DefaultApiBase);
      tokenCache := map[];
    }

    /** `getToken(corpid, corpsecret)` with the clock read before the lookup (`now`) and after
        the reply (`later`) as parameters. A fresh entry answers without a request; otherwise
        the reply decides: a success overwrites the entry, a failure leaves the cache alone. */
    method GetToken(corpid: string, corpsecret: string, now: int, later: int, reply: Reply<TokenPayload>)
      returns (r: Result<string, string>, requested: bool)
      modifies this
      ensures var key := CacheKey(corpid, corpsecret);
        && (requested <==> !Fresh(old(tokenCache), key, now))
        && (!requested ==> r == Ok(old(tokenCache)[key].token) && tokenCache == old(tokenCache))
        && (requested ==> (r, tokenCache) == Fetched(old(tokenCache), key, later, reply))
        && (r, tokenCache) == TokenStep(old(tokenCache), key, now, later, reply)
    {
      var key := CacheKey(corpid, corpsecret);
      if key in tokenCache && tokenCache[key].expires > now {
        return Ok(tokenCache[key].token), false;
      }
      requested := true;
      if !Succeeded(reply) {
        return Err(Failure("获取token", reply)), requested;
      }
      var expires := ExpiryAfter(later, reply.payload.expiresIn);
      tokenCache := tokenCache[key := CachedToken(reply.payload.accessToken, expires)];
      r := Ok(reply.payload.accessToken);
    }

    /** `sendMessage`: the POST it makes, and the reply's verdict. A successful reply is returned
        whole, with its `msgid` and the recipients the platform refused. */
    function SendMessage(accessToken: string, agentid: int, touser: Recipients, message: string,
                         reply: Reply<SendPayload>): (r: (Post, Result<Reply<SendPayload>, string>))
      ensures r.0.url == apiBase + "/cgi-bin/message/send?access_token=" + accessToken
      ensures r.0.body == BuildMessageBody(agentid, touser, message)
      ensures r.1.Ok? <==> Succeeded(reply)
      ensures r.1.Ok? ==> r.1.value == reply && r.1.value.errcode == Some(0)
      ensures r.1.Err? ==> r.1.error == Failure("发送消息", reply)
    {
      (Post(apiBase + "/cgi-bin/message/send?access_token=" + accessToken, BuildMessageBody(agentid, touser, message)),
       if Succeeded(reply) then Ok(reply) else Err(Failure("发送消息", reply)))
    }

    /** `getAllUsers`: the department list, then each department's members in order, keeping a
        userid only the first time it is seen. Any failed call ends it with that call's error. */
    method GetAllUsers(deptReply: Reply<Option<seq<Department>>>, users: int -> Reply<Option<seq<Member>>>)
      returns (r: Result<seq<Entry>, string>)
      ensures !Succeeded(deptReply) ==> r == Err(Failure("获取部门列表", deptReply))
      ensures Succeeded(deptReply) ==>
        var s := Stream(deptReply.payload.GetOr([]), users);
        (r.Err? <==> s.Err?) && (s.Err? ==> r.error == s.error) && (s.Ok? ==> r.value == Dedup(s.value))
    {
      if !Succeeded(deptReply) {
        return Err(Failure("获取部门列表", deptReply));
      }
      var departments := deptReply.payload.GetOr([]);
      var allUsers: seq<Entry> := [];
      var userSet: set<string> := {};
      ghost var seen: seq<Entry> := [];
      var d := 0;
      while d < |departments|
        invariant 0 <= d <= |departments|
        invariant Stream(departments[..d], users) == Ok(seen)
        invariant allUsers == Dedup(seen) && userSet == UserIds(allUsers)
      {
        var dept := departments[d];
        var reply := users(dept.id);
        assert departments[..d + 1][..d] == departments[..d];
        if !Succeeded(reply) {
          r := Err(Failure("获取成员列表", reply));
          FailurePersists(departments, users, d + 1);
          return;
        }
        var list := reply.payload.GetOr([]);
        ghost var tagged := Tag(list, dept);
        assert Stream(departments[..d + 1], users) == Ok(seen + tagged);
        allUsers, userSet := AddMembers(allUsers, userSet, list, dept, seen);
        seen := seen + tagged;
        d := d + 1;
      }
      assert departments[..d] == departments;
      r := Ok(allUsers);
    }
  }

  /** The callback of `users.forEach`: appends each member whose userid is not yet in the set. */
  method AddMembers(allUsers: seq<Entry>, userSet: set<string>, list: seq<Member>, dept: Department,
                    ghost seen: seq<Entry>)
    returns (all': seq<Entry>, set': set<string>)
    requires allUsers == Dedup(seen) && userSet == UserIds(allUsers)
    ensures all' == Dedup(seen + Tag(list, dept)) && set' == UserIds(all')
  {
    ghost var tagged := Tag(list, dept);
    all', set' := allUsers, userSet;
    assert seen + tagged[..0] == seen;
    var u := 0;
    while u < |list|
      invariant 0 <= u <= |list|
      invariant all' == Dedup(seen + tagged[..u]) && set' == UserIds(all')
    {
      var e := Entry(list[u].userid, list[u].name, dept.name);
      SnocPrefix(seen, tagged, u);
      AddOne(seen + tagged[..u], e, all', set');
      if e.userid !in set' {
        set' := set' + {e.userid};
        all' := all' + [e];
      }
      u := u + 1;
    }
    assert seen + tagged[..u] == seen + tagged;
  }

  lemma SnocPrefix(seen: seq<Entry>, tagged: seq<Entry>, u: nat)
    requires u < |tagged|
    ensures seen + tagged[..u + 1] == (seen + tagged[..u]) + [tagged[u]]
  {
    assert tagged[..u + 1] == tagged[..u] + [tagged[u]];
  }

  lemma UserIdsSnoc(s: seq<Entry>, e: Entry)
    ensures UserIds(s + [e]) == UserIds(s) + {e.userid}
  {
    assert forall x :: x in s + [e] <==> x in s || x == e;
  }

  /** One step of the callback keeps the list the dedup of what was visited and the set its
      userids. */
  lemma AddOne(done: seq<Entry>, e: Entry, all: seq<Entry>, ids: set<string>)
    requires all == Dedup(done) && ids == UserIds(all)
    ensures (if e.userid in ids then all else all + [e]) == Dedup(done + [e])
    ensures (if e.userid in ids then ids else ids + {e.userid}) == UserIds(Dedup(done + [e]))
  {
    DedupSnoc(done, e);
    UserIdsSnoc(all, e);
  }

  lemma DedupSnoc(s: seq<Entry>, e: Entry)
    ensures Dedup(s + [e]) == if e.userid in UserIds(Dedup(s)) then Dedup(s) else Dedup(s) + [e]
  {
    assert (s + [e])[..|s|] == s;
  }

  /** Once a department's list fails, the whole walk fails with that error. */
  lemma {:induction false} FailurePersists(depts: seq<Department>, users: int -> Reply<Option<seq<Member>>>, n: nat)
    requires 0 < n <= |depts|
    requires Stream(depts[..n - 1], users).Ok?
    requires !Succeeded(users(depts[n - 1].id))
    ensures Stream(depts, users) == Err(Failure("获取成员列表", users(depts[n - 1].id)))
    decreases |depts|
  {
    if n < |depts| {
      assert depts[..|depts| - 1][..n - 1] == depts[..n - 1];
      assert depts[..|depts| - 1][n - 1] == depts[n - 1];
      FailurePersists(depts[..|depts| - 1], users, n);
    } else {
      assert depts[..|depts| - 1] == depts[..n - 1];
    }
  }
}
