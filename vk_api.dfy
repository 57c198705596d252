/** The non-network parts of the VK API accessor
    (app/store/vk_api/accessor.py): building a request URL from a host, a
    method and a parameter dictionary, adopting the long-poll server's
    key/server/ts, decoding a long-poll response into updates, and the
    parameters of a message send. Every HTTP exchange is abstracted: the
    request URL is returned, and the parsed JSON response is an input. */
module VkApi {
  import opened Wrappers
  import opened Seqs

  const BaseApiUrl := "https://api.vk.com/method/"
  /** The API version `_build_query` adds when the caller gives none. */
  const DefaultVersion := "5.131"
  const MessageNew := "message_new"
  /** Upper bound (inclusive) of `randint(0, 10000000)` for `random_id`. */
  const MaxRandomId := 10000000
  /** The long-poll `wait` parameter. */
  const LongPollWait := 25

  // ---------------------------------------------------------------------
  // Rendering values the way an f-string does

  /** A parameter value: a string, an integer, or Python's `None`. */
  datatype Value = Str(s: string) | Int(i: int) | Null

  predicate IsDigits(s: string)
  {
    forall k :: 0 <= k < |s| ==> '0' <= s[k] <= '9'
  }

  /** `str(n)` for a natural number: decimal digits, no leading zero. */
  function NatToDecimal(n: nat): (r: string)
    ensures |r| >= 1 && IsDigits(r)
    ensures r[0] == '0' ==> n == 0
  {
    var d := (48 + n % 10) as char;
    if n < 10 then [d] else NatToDecimal(n / 10) + [d]
  }

  /** The number a string of decimal digits denotes. */
  function DecimalValue(s: string): int
    requires IsDigits(s)
  {
    if s == [] then 0
    else 10 * DecimalValue(s[..|s| - 1]) + (s[|s| - 1] as int - 48)
  }

  /** `NatToDecimal` is undone by reading the digits back. */
  lemma {:induction false} DecimalRoundTrip(n: nat)
    ensures DecimalValue(NatToDecimal(n)) == n
  {
    if n >= 10 {
      DecimalRoundTrip(n / 10);
      var r := NatToDecimal(n);
      assert r[..|r| - 1] == NatToDecimal(n / 10);
    }
  }

  /** Reading back a rendered integer. */
  function ParseInt(s: string): Option<int>
  {
    if |s| > 0 && s[0] == '-' && IsDigits(s[1..]) then Some(-DecimalValue(s[1..]))
    else if IsDigits(s) then Some(DecimalValue(s))
    else None
  }

  /** `str(i)` for any integer: reads back as the same integer, and holds
      no query separator. */
  function IntToDecimal(i: int): (r: string)
    ensures ParseInt(r) == Some(i)
    ensures '&' !in r && '=' !in r
  {
    if i < 0 then
      var d := NatToDecimal(-i);
      var r := "-" + d;
      assert ParseInt(r) == Some(i) by {
        DecimalRoundTrip(-i);
        assert r[0] == '-' && r[1..] == d;
      }
      assert '&' !in r && '=' !in r by {
        DigitsHaveNoSeparator(d);
        assert forall k :: 0 <= k < |r| ==> r[k] == '-' || r[k] in d;
      }
      r
    else
      assert ParseInt(NatToDecimal(i)) == Some(i) by { DecimalRoundTrip(i); }
      assert '&' !in NatToDecimal(i) && '=' !in NatToDecimal(i) by { DigitsHaveNoSeparator(NatToDecimal(i)); }
      NatToDecimal(i)
  }

  /** What `f"{v}"` produces for a parameter value: a string as itself, an
      integer in decimal that reads back as that integer, `None` as "None". */
  function Render(v: Value): (r: string)
    ensures v.Str? ==> r == v.s
    ensures v.Int? ==> ParseInt(r) == Some(v.i) && '&' !in r && '=' !in r
    ensures v.Null? ==> r == "None"
  {
    match v
    case Str(s) => s
    case Int(i) => IntToDecimal(i)
    case Null => "None"
  }

  lemma DigitsHaveNoSeparator(s: string)
    requires IsDigits(s)
    ensures '&' !in s && '=' !in s
  {
    assert forall k :: 0 <= k < |s| ==> s[k] != '&' && s[k] != '=';
  }

  // ---------------------------------------------------------------------
  // `_build_query`

  /** A parameter dictionary: its keys and values in insertion order. */
  type Params = seq<(string, Value)>

  predicate HasKey(params: Params, key: string)
  {
    exists k :: 0 <= k < |params| && params[k].0 == key
  }

  /** A real dictionary has each key once. */
  ghost predicate DistinctKeys(params: Params)
  {
    forall k, l :: 0 <= k < l < |params| ==> params[k].0 != params[l].0
  }

  /** `params[key]` when the key is present. */
  function Lookup(params: Params, key: string): Option<Value>
  {
    if params == [] then None
    else if params[0].0 == key then Some(params[0].1)
    else Lookup(params[1..], key)
  }

  /** Lookup finds a value exactly for the keys that are present. */
  lemma {:induction false} LookupSome(params: Params, key: string)
    ensures Lookup(params, key).Some? <==> HasKey(params, key)
  {
    if params != [] {
      LookupSome(params[1..], key);
      if params[0].0 != key && HasKey(params, key) {
        var k :| 0 <= k < |params| && params[k].0 == key;
        assert params[1..][k - 1].0 == key;
      }
    }
  }

  /** Looking up a key that differs from `key'` is not affected by
      appending an entry for `key'`. */
  lemma {:induction false} LookupAppend(params: Params, key: string, key': string, v: Value)
    ensures Lookup(params + [(key', v)], key) ==
              if Lookup(params, key).Some? then Lookup(params, key)
              else if key == key' then Some(v)
              else None
  {
    if params != [] {
      LookupAppend(params[1..], key, key', v);
      assert (params + [(key', v)])[1..] == params[1..] + [(key', v)];
    }
  }

  /** `if "v" not in params: params["v"] = "5.131"`: the dictionary as
      `_build_query` leaves it. */
  function WithDefaultVersion(params: Params): (r: Params)
    ensures HasKey(r, "v")
    ensures |r| == if HasKey(params, "v") then |params| else |params| + 1
    ensures r[..|params|] == params
    ensures Lookup(r, "v") == if HasKey(params, "v") then Lookup(params, "v") else Some(Str(DefaultVersion))
    ensures forall key :: key != "v" ==> Lookup(r, key) == Lookup(params, key)
    ensures DistinctKeys(params) ==> DistinctKeys(r)
  {
    LookupSome(params, "v");
    var r := if HasKey(params, "v") then params else params + [("v", Str(DefaultVersion))];
    assert r[|r| - 1].0 == "v" || HasKey(params, "v");
    forall key ensures key != "v" ==> Lookup(r, key) == Lookup(params, key) {
      LookupAppend(params, key, "v", Str(DefaultVersion));
    }
    LookupAppend(params, "v", "v", Str(DefaultVersion));
    assert r[..|params|] == params;
    r
  }

  /** The `f"{k}={v}"` pieces of a dictionary, in insertion order. */
  function QueryPairs(params: Params): (r: seq<string>)
    ensures |r| == |params|
  {
    seq(|params|, k requires 0 <= k < |params| => params[k].0 + "=" + Render(params[k].1))
  }

  /** The URL `_build_query` returns, with the dictionary as it leaves it. */
  datatype Query = Query(url: string, params: Params)

  /** `_build_query(host, method, params)`. */
  function BuildQuery(host: string, apiMethod: string, params: Params): (q: Query)
    ensures q.params == WithDefaultVersion(params)
    ensures |q.url| > |host + apiMethod| && q.url[..|host + apiMethod| + 1] == host + apiMethod + "?"
    ensures q.url[|host + apiMethod| + 1..] == Join(QueryPairs(q.params), '&')
  {
    var prefix := host + apiMethod + "?";
    var params' := WithDefaultVersion(params);
    var url := prefix + Join(QueryPairs(params'), '&');
    assert url[..|prefix|] == prefix;
    assert url[|prefix|..] == Join(QueryPairs(params'), '&');
    Query(url, params')
  }

  /** A query piece `k=v` read back: the text before the first `=`, and
      the rest. */
  function SplitPair(s: string): (string, string)
  {
    if s == [] then ("", "")
    else if s[0] == '=' then ("", s[1..])
    else var kv := SplitPair(s[1..]); ([s[0]] + kv.0, kv.1)
  }

  lemma {:induction false} SplitPairOf(key: string, text: string)
    requires '=' !in key
    ensures SplitPair(key + "=" + text) == (key, text)
  {
    if key != [] {
      assert key[0] != '=' && '=' !in key[1..];
      SplitPairOf(key[1..], text);
      assert (key + "=" + text)[0] == key[0];
      assert (key + "=" + text)[1..] == key[1..] + "=" + text;
      assert key == [key[0]] + key[1..];
    } else {
      assert key + "=" + text == "=" + text;
    }
  }

  /** The text after `?` split on `&`, and each piece then split at its
      first `=`. */
  function ParseQuery(s: string): seq<(string, string)>
  {
    var pieces := Split(s, '&');
    seq(|pieces|, k requires 0 <= k < |pieces| => SplitPair(pieces[k]))
  }

  /** The dictionary as text pairs. */
  function RenderedPairs(params: Params): seq<(string, string)>
  {
    seq(|params|, k requires 0 <= k < |params| => (params[k].0, Render(params[k].1)))
  }

  /** Reading back the query part of `_build_query`'s URL gives every
      parameter, `v` included, in insertion order with its rendered value,
      provided no key holds `&` or `=` and no rendered value holds `&`
      (the values are not escaped). */
  lemma BuildQueryRoundTrip(host: string, apiMethod: string, params: Params)
    requires Plain(params)
    ensures var q := BuildQuery(host, apiMethod, params);
            ParseQuery(q.url[|host + apiMethod| + 1..]) == RenderedPairs(q.params)
  {
    var q := BuildQuery(host, apiMethod, params);
    WithDefaultVersionPlain(params);
    ParsePairs(q.params);
  }

  /** No key of a dictionary holds `&` or `=`, and no rendered value
      holds `&`. */
  ghost predicate Plain(params: Params)
  {
    forall k :: 0 <= k < |params| ==>
      '&' !in params[k].0 && '=' !in params[k].0 && '&' !in Render(params[k].1)
  }

  lemma WithDefaultVersionPlain(params: Params)
    requires Plain(params)
    ensures Plain(WithDefaultVersion(params))
  {
    var ps := WithDefaultVersion(params);
    forall k | 0 <= k < |ps|
      ensures '&' !in ps[k].0 && '=' !in ps[k].0 && '&' !in Render(ps[k].1)
    {
      if k >= |params| {
        assert ps[k] == ("v", Str(DefaultVersion));
      } else {
        assert ps[k] == ps[..|params|][k];
      }
    }
  }

  /** Reading back the joined pieces of a plain dictionary. */
  lemma ParsePairs(ps: Params)
    requires |ps| >= 1 && Plain(ps)
    ensures ParseQuery(Join(QueryPairs(ps), '&')) == RenderedPairs(ps)
  {
    var pieces := QueryPairs(ps);
    forall k | 0 <= k < |pieces| ensures '&' !in pieces[k] {
      assert pieces[k] == ps[k].0 + "=" + Render(ps[k].1);
    }
    SplitJoin(pieces, '&');
    forall k | 0 <= k < |pieces| ensures SplitPair(pieces[k]) == (ps[k].0, Render(ps[k].1)) {
      SplitPairOf(ps[k].0, Render(ps[k].1));
    }
  }

  // ---------------------------------------------------------------------
  // Long-poll responses and their decoding

  /** `event["object"]["message"]` of a raw long-poll event. */
  datatype RawMessage = RawMessage(fromId: int, text: string, id: int)
  /** A raw event: its `type`, and its message when `object.message` with
      `from_id`, `text` and `id` is present. */
  datatype RawEvent = RawEvent(eventType: string, message: Option<RawMessage>)
  /** A long-poll response: `ts` and `updates`, each possibly absent. */
  datatype PollResponse = PollResponse(ts: Option<int>, updates: Option<seq<RawEvent>>)

  /** The `groups.getLongPollServer` response: its `response` object, whose
      `key`, `server` and `ts` may each be absent. */
  datatype LongPollServer = LongPollServer(key: Option<string>, server: Option<string>, ts: Option<int>)

  datatype UpdateMessage = UpdateMessage(fromId: int, text: string, id: int)
  datatype UpdateObject = UpdateObject(message: UpdateMessage)
  datatype Update = Update(updateType: string, obj: UpdateObject)

  /** Why a call fails before returning: `NotConnected` is the `TypeError`
      of `None + ""` when no server was negotiated, `MissingKey` the
      `KeyError` of an absent JSON field. */
  datatype PollError = NotConnected | MissingKey

  const IsNewMessage: RawEvent -> bool := (e: RawEvent) => e.eventType == MessageNew

  /** The `Update` built from a kept event. */
  function ToUpdate(e: RawEvent): Update
    requires e.message.Some?
  {
    var m := e.message.value;
    Update(e.eventType, UpdateObject(UpdateMessage(m.fromId, m.text, m.id)))
  }

  ghost predicate AllHaveMessages(events: seq<RawEvent>)
  {
    forall k :: 0 <= k < |events| ==> events[k].message.Some?
  }

  function ToUpdates(kept: seq<RawEvent>): (r: seq<Update>)
    requires AllHaveMessages(kept)
    ensures |r| == |kept|
  {
    seq(|kept|, k requires 0 <= k < |kept| => ToUpdate(kept[k]))
  }

  /** What the loop of `poll` yields for a list of events: an update for
      every `message_new` event, in order, unless one of them lacks its
      message fields, which raises `KeyError`. */
  function DecodeEvents(events: seq<RawEvent>): (r: Result<seq<Update>, PollError>)
    ensures r.Failure? ==> r.error == MissingKey
    ensures r.Failure? <==>
              exists i :: 0 <= i < |events| && events[i].eventType == MessageNew && events[i].message.None?
  {
    var kept := Filter(events, IsNewMessage);
    KeptHaveMessages(events);
    if forall k :: 0 <= k < |kept| ==> kept[k].message.Some? then
      Success(ToUpdates(kept))
    else
      Failure(MissingKey)
  }

  /** Every kept event has its message exactly when no `message_new` event
      lacks one. */
  lemma KeptHaveMessages(events: seq<RawEvent>)
    ensures AllHaveMessages(Filter(events, IsNewMessage)) <==>
              forall i :: 0 <= i < |events| && events[i].eventType == MessageNew ==> events[i].message.Some?
  {
    var kept := Filter(events, IsNewMessage);
    if AllHaveMessages(kept) {
      forall i | 0 <= i < |events| && events[i].eventType == MessageNew ensures events[i].message.Some? {
        assert events[i] in events && IsNewMessage(events[i]);
        var k :| 0 <= k < |kept| && kept[k] == events[i];
      }
    } else {
      var k :| 0 <= k < |kept| && kept[k].message.None?;
      assert kept[k] in kept;
      var i :| 0 <= i < |events| && events[i] == kept[k];
      assert IsNewMessage(kept[k]);
    }
  }

  /** `u` is the update built from event `e`. */
  ghost predicate DecodedFrom(u: Update, e: RawEvent)
  {
    && e.message.Some?
    && u.updateType == MessageNew
    && u.obj.message.fromId == e.message.value.fromId
    && u.obj.message.text == e.message.value.text
    && u.obj.message.id == e.message.value.id
  }

  /** A successful decoding has one update per `message_new` event, in
      the events' order, each copying `from_id`, `text` and `id` and typed
      `message_new`; events of other types are dropped. */
  lemma DecodeEventsSpec(events: seq<RawEvent>)
    requires DecodeEvents(events).Success?
    ensures var us := DecodeEvents(events).value;
            exists idx: seq<int> :: |idx| == |us|
                          && (forall k, l :: 0 <= k < l < |idx| ==> idx[k] < idx[l])
                          && (forall k :: 0 <= k < |idx| ==> 0 <= idx[k] < |events| && DecodedFrom(us[k], events[idx[k]]))
                          && (forall i :: 0 <= i < |events| ==> (events[i].eventType == MessageNew <==> i in idx))
  {
    var kept := Filter(events, IsNewMessage);
    FilterSelects(events, IsNewMessage);
    var idx := MatchingIndices(events, IsNewMessage);
    var us := DecodeEvents(events).value;
    forall k | 0 <= k < |idx| ensures 0 <= idx[k] < |events| && DecodedFrom(us[k], events[idx[k]]) {
      assert kept[k] == events[idx[k]];
      assert IsNewMessage(kept[k]);
    }
  }

  /** The request for `groups.getLongPollServer`. */
  function LongPollServerQuery(token: string, groupId: Value): (q: Query)
    ensures |q.url| > |BaseApiUrl + "groups.getLongPollServer"|
    ensures q.url[..|BaseApiUrl + "groups.getLongPollServer"| + 1] == BaseApiUrl + "groups.getLongPollServer?"
    ensures q.params == [("access_token", Str(token)), ("group_id", groupId), ("v", Str(DefaultVersion))]
  {
    var ps := [("access_token", Str(token)), ("group_id", groupId)];
    assert !HasKey(ps, "v");
    BuildQuery(BaseApiUrl, "groups.getLongPollServer", ps)
  }

  function OptStr(x: Option<string>): Value
  {
    match x
    case Some(s) => Str(s)
    case None => Null
  }

  function OptInt(x: Option<int>): Value
  {
    match x
    case Some(i) => Int(i)
    case None => Null
  }

  /** The long-poll request, `server` followed by `?act=a_check&key=...&ts=...&wait=25&v=5.131`. */
  function PollQuery(server: string, key: Option<string>, ts: Option<int>): (q: Query)
    ensures |q.url| > |server| && q.url[..|server| + 1] == server + "?"
    ensures q.params == [("act", Str("a_check")), ("key", OptStr(key)), ("ts", OptInt(ts)),
                         ("wait", Int(25)), ("v", Str("5.131"))]
  {
    var ps := [("act", Str("a_check")), ("key", OptStr(key)), ("ts", OptInt(ts)), ("wait", Int(LongPollWait))];
    assert !HasKey(ps, "v");
    assert server + "" == server;
    BuildQuery(server, "", ps)
  }

  /** The cursor is echoed back: the third parameter a server reads from
      the long-poll request is `ts`, and its text reads back as the
      current cursor. */
  lemma PollRequestEchoesCursor(server: string, key: string, ts: int)
    requires '&' !in key
    ensures var pairs := ParseQuery(PollQuery(server, Some(key), Some(ts)).url[|server| + 1..]);
            |pairs| == 5 && pairs[2].0 == "ts" && ParseInt(pairs[2].1) == Some(ts)
  {
    var ps := [("act", Str("a_check")), ("key", OptStr(Some(key))), ("ts", OptInt(Some(ts))), ("wait", Int(LongPollWait))];
    assert server + "" == server;
    assert Render(ps[2].1) == Render(Int(ts));
    BuildQueryRoundTrip(server, "", ps);
    var q := PollQuery(server, Some(key), Some(ts));
    assert RenderedPairs(q.params)[2] == ("ts", Render(Int(ts)));
  }

  /** The outgoing message of `send_message`. */
  datatype Message = Message(userId: int, text: string)

  /** The parameters `send_message` passes to `_build_query`. */
  function SendParams(message: Message, token: string, randomId: int): (r: Params)
    ensures !HasKey(r, "v")
    ensures Lookup(r, "random_id") == Some(Int(randomId))
  {
    var r := [("user_id", Int(message.userId)), ("message", Str(message.text)),
              ("access_token", Str(token)), ("random_id", Int(randomId))];
    assert Lookup(r[3..], "random_id") == Some(Int(randomId));
    assert r[2..][1..] == r[3..] && r[1..][1..] == r[2..];
    assert Lookup(r[1..], "random_id") == Lookup(r[2..], "random_id");
    r
  }

  /** The long-poll client state of `VkApiAccessor`; the HTTP session and
      the poller object are not modelled. */
  class VkApiAccessor {
    var key: Option<string>
    var server: Option<string>
    var ts: Option<int>

    constructor ()
      ensures key == None && server == None && ts == None
    {
      key, server, ts := None, None, None;
    }

    /** `_get_long_poll_service`: requests the long-poll server and adopts
        its `key`, `server` and `ts` one after the other, so an absent field
        stops the assignments at that point with a `KeyError`. */
    method GetLongPollService(token: string, groupId: Value, response: Option<LongPollServer>)
      returns (request: string, r: Result<(), PollError>)
      modifies this
      ensures request == LongPollServerQuery(token, groupId).url
      ensures r.Success? <==> response.Some? && response.value.key.Some?
                              && response.value.server.Some? && response.value.ts.Some?
      ensures r.Failure? ==> r.error == MissingKey
      ensures key == if response.Some? && response.value.key.Some? then response.value.key else old(key)
      ensures server == if response.Some? && response.value.key.Some? && response.value.server.Some?
                        then response.value.server else old(server)
      ensures ts == if r.Success? then response.value.ts else old(ts)
    {
      request := LongPollServerQuery(token, groupId).url;
      if response.None? {
        return request, Failure(MissingKey);
      }
      var data := response.value;
      if data.key.None? {
        return request, Failure(MissingKey);
      }
      key := data.key;
      if data.server.None? {
        return request, Failure(MissingKey);
      }
      server := data.server;
      if data.ts.None? {
        return request, Failure(MissingKey);
      }
      ts := data.ts;
      r := Success(());
    }

    /** `poll`: sends the long-poll request, adopts the response's `ts`
        unconditionally, then decodes its updates. The `ts` is adopted
        before the decoding loop, so it is kept even when that loop raises. */
    method Poll(response: PollResponse) returns (request: Option<string>, r: Result<seq<Update>, PollError>)
      modifies this`ts
      ensures old(server).None? ==> request == None && r == Failure(NotConnected) && ts == old(ts)
      ensures old(server).Some? ==> request == Some(PollQuery(old(server).value, key, old(ts)).url)
      ensures old(server).Some? && response.ts.None? ==> r == Failure(MissingKey) && ts == old(ts)
      ensures old(server).Some? && response.ts.Some? ==>
                ts == response.ts && r == DecodeEvents(response.updates.GetOr([]))
      ensures old(server).Some? && response.ts.Some? && response.updates.None? ==> r == Success([])
    {
      if server.None? {
        return None, Failure(NotConnected);
      }
      request := Some(PollQuery(server.value, key, ts).url);
      if response.ts.None? {
        return request, Failure(MissingKey);
      }
      ts := response.ts;
      r := CollectUpdates(response.updates.GetOr([]));
    }

    /** The loop of `poll` over `data.get('updates', [])`: appends an update
        for each `message_new` event, raising on one without its message. */
    static method CollectUpdates(events: seq<RawEvent>) returns (r: Result<seq<Update>, PollError>)
      ensures r == DecodeEvents(events)
    {
      var updates := [];
      for i := 0 to |events|
        invariant AllHaveMessages(Filter(events[..i], IsNewMessage))
        invariant updates == ToUpdates(Filter(events[..i], IsNewMessage))
      {
        var event := events[i];
        assert events[..i + 1] == events[..i] + [event];
        if event.eventType == MessageNew {
          if event.message.None? {
            assert event in events;
            return Failure(MissingKey);
          }
          updates := updates + [ToUpdate(event)];
        }
      }
      assert events[..|events|] == events;
      return Success(updates);
    }

    /** `send_message`: the request for `messages.send`, with a `random_id`
        drawn from [0, 10000000]; which number is drawn is left open. */
    method SendMessage(message: Message, token: string) returns (randomId: int, request: string)
      ensures 0 <= randomId <= MaxRandomId
      ensures request == BuildQuery(BaseApiUrl, "messages.send", SendParams(message, token, randomId)).url
      ensures BuildQuery(BaseApiUrl, "messages.send", SendParams(message, token, randomId)).params ==
                SendParams(message, token, randomId) + [("v", Str(DefaultVersion))]
    {
      randomId :| 0 <= randomId <= MaxRandomId;
      request := BuildQuery(BaseApiUrl, "messages.send", SendParams(message, token, randomId)).url;
    }
  }
}
