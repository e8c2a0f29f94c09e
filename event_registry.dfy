/**
 * The event-id registry of fbs.go: `eventIdSingle` and its constructor
 * `WithEventId`.
 *
 * `backMap` binds a pending event id to the capacity-1 channel its waiter
 * receives a token on; `backVal` holds the payload each minted token stands
 * for until GetVal consumes it. Each locked method is one atomic step, and
 * the expiry timer's callback is the explicit step `Expire`.
 *
 * Go channels are references that outlive their entry in `backMap`: the
 * waiter keeps receiving on a channel after `Done` or expiry has removed it.
 * The model therefore keeps every channel the registry has made in a table,
 * `chans`, and names a channel by its index there (a handle); `backMap`
 * maps an id to a handle.
 *
 * The token `uuid.NewString()` mints in Done is a parameter, required to be
 * non-empty and not already a key of `backVal`.
 */
module EventRegistry {
  import opened Wrappers
  import opened Channels

  /**
   * The state of a registry. `chans[h]` is what channel `h` buffers and
   * `sent[h]` every token ever sent on it (a proof device, not in the source).
   */
  datatype Registry<V> = Registry(
    backMap: map<string, nat>,
    backVal: map<string, V>,
    chans: seq<seq<string>>,
    sent: seq<seq<string>>)

  /** An id that is bound to channel `h`. */
  ghost predicate Pending<V>(r: Registry<V>, h: nat)
  {
    exists id :: id in r.backMap && r.backMap[id] == h
  }

  /** Every channel is sent at most one token, and buffers nothing else. */
  ghost predicate ChannelsOk(chans: seq<seq<string>>, sent: seq<seq<string>>)
  {
    |sent| == |chans| &&
    forall h :: 0 <= h < |chans| ==> |sent[h]| <= Capacity && Buffered(chans[h], sent[h])
  }

  /** The channel of a pending id has been sent nothing, so the one send Done or expiry makes on it never blocks. */
  ghost predicate BindingsOpen(backMap: map<string, nat>, sent: seq<seq<string>>)
  {
    forall id :: id in backMap ==> backMap[id] < |sent| && sent[backMap[id]] == []
  }

  /** No two pending ids share a channel. */
  ghost predicate Unshared(backMap: map<string, nat>)
  {
    forall a, b :: a in backMap && b in backMap && a != b ==> backMap[a] != backMap[b]
  }

  /**
   * The registry invariant: the three above, and the empty token, which
   * stands for a timeout, never names a payload.
   */
  ghost predicate Inv<V>(r: Registry<V>)
  {
    && ChannelsOk(r.chans, r.sent)
    && BindingsOpen(r.backMap, r.sent)
    && Unshared(r.backMap)
    && "" !in r.backVal
  }

  /**
   * The steps a registry can take: AddSingle, Done with the token it mints,
   * the expiry callback of AddSingle, GetVal, and a receive on a channel.
   */
  datatype Event<V> =
    | Register(id: string)
    | Complete(id: string, backData: V, token: string)
    | Expiry(id: string)
    | Claim(token: string)
    | Take(handle: nat)

  /** What a step needs from its caller: a fresh, non-empty token for Done, an existing channel for a receive. */
  ghost predicate Allowed<V>(r: Registry<V>, e: Event<V>)
  {
    match e
    case Complete(_, _, token) => token != "" && token !in r.backVal
    case Take(h) => h < |r.chans|
    case _ => true
  }

  /** `WithEventId`: both maps empty, no channel made yet. */
  function Empty<V>(): (r: Registry<V>)
    ensures Inv(r)
    ensures r.backMap == map[] && r.backVal == map[] && r.chans == []
  {
    Registry(map[], map[], [], [])
  }

  /** The payload GetVal returns for `token`: None stands for `(nil, false)`. */
  function Lookup<V>(r: Registry<V>, token: string): (v: Option<V>)
    requires Inv(r)
    ensures v.Some? <==> token in r.backVal
    ensures token == "" ==> v == None
    ensures v.Some? ==> v.value == r.backVal[token]
  {
    if token in r.backVal then Some(r.backVal[token]) else None
  }

  /** AddSingle: bind the id to a new, empty channel, overwriting any earlier binding. */
  function AddStep<V>(r: Registry<V>, id: string): (r': Registry<V>)
    requires Inv(r)
    ensures Inv(r')
    ensures r'.backMap == r.backMap[id := |r.chans|] && r'.backVal == r.backVal
    ensures r'.chans == r.chans + [[]] && r'.sent[..|r.sent|] == r.sent
  {
    var n := |r.chans|;
    var r' := r.(backMap := r.backMap[id := n], chans := r.chans + [[]], sent := r.sent + [[]]);
    assert ChannelsOk(r'.chans, r'.sent) by {
      forall h | 0 <= h < |r'.chans|
        ensures |r'.sent[h]| <= Capacity && Buffered(r'.chans[h], r'.sent[h])
      {
        if h < n {
          assert r'.chans[h] == r.chans[h] && r'.sent[h] == r.sent[h];
        }
      }
    }
    assert BindingsOpen(r'.backMap, r'.sent) by {
      forall i | i in r'.backMap ensures r'.backMap[i] < |r'.sent| && r'.sent[r'.backMap[i]] == [] {
        if i != id {
          assert r'.backMap[i] == r.backMap[i] < n;
          assert r'.sent[r'.backMap[i]] == r.sent[r.backMap[i]];
        }
      }
    }
    assert Unshared(r'.backMap) by {
      forall a, b | a in r'.backMap && b in r'.backMap && a != b ensures r'.backMap[a] != r'.backMap[b] {
        if a != id && b != id {
          assert r'.backMap[a] == r.backMap[a] && r'.backMap[b] == r.backMap[b];
        } else if a == id {
          assert r'.backMap[b] == r.backMap[b] < n;
        } else {
          assert r'.backMap[a] == r.backMap[a] < n;
        }
      }
    }
    r'
  }

  /**
   * Sending on the channel of a pending id and unbinding the id, the common
   * part of Done and expiry. The channel has been sent nothing, so the send
   * fits in its one slot.
   */
  function Resolve<V>(r: Registry<V>, id: string, token: string): (r': Registry<V>)
    requires Inv(r) && id in r.backMap
    ensures Inv(r')
    ensures r'.backMap == r.backMap - {id} && r'.backVal == r.backVal
    ensures r'.chans == r.chans[r.backMap[id] := [token]]
    ensures r'.sent == r.sent[r.backMap[id] := [token]]
  {
    var h := r.backMap[id];
    assert r.sent[h] == [] && r.chans[h] == [];
    assert Send(r.chans[h], token) == r.sent[h] + [token] == [token];
    var r' := r.(backMap := r.backMap - {id},
                 chans := r.chans[h := Send(r.chans[h], token)],
                 sent := r.sent[h := r.sent[h] + [token]]);
    assert ChannelsOk(r'.chans, r'.sent) by {
      forall i | 0 <= i < |r'.chans|
        ensures |r'.sent[i]| <= Capacity && Buffered(r'.chans[i], r'.sent[i])
      {
        if i != h {
          assert r'.chans[i] == r.chans[i] && r'.sent[i] == r.sent[i];
        }
      }
    }
    assert BindingsOpen(r'.backMap, r'.sent) by {
      forall i | i in r'.backMap ensures r'.backMap[i] < |r'.sent| && r'.sent[r'.backMap[i]] == [] {
        assert i in r.backMap && i != id && r.backMap[i] != h;
      }
    }
    r'
  }

  /** Done: for a pending id, store the payload under the token, send the token and unbind the id. */
  function DoneStep<V>(r: Registry<V>, id: string, backData: V, token: string): (r': Registry<V>)
    requires Inv(r) && token != "" && token !in r.backVal
    ensures Inv(r')
    ensures id in r.backMap ==>
      && r'.backMap == r.backMap - {id}
      && r'.backVal == r.backVal[token := backData]
      && r'.chans == r.chans[r.backMap[id] := [token]]
    ensures id !in r.backMap ==> r' == r
  {
    if id in r.backMap then Resolve(r, id, token).(backVal := r.backVal[token := backData]) else r
  }

  /** Expiry: for a pending id, send "" and unbind the id. */
  function ExpireStep<V>(r: Registry<V>, id: string): (r': Registry<V>)
    requires Inv(r)
    ensures Inv(r')
    ensures id in r.backMap ==>
      && r'.backMap == r.backMap - {id} && r'.backVal == r.backVal
      && r'.chans == r.chans[r.backMap[id] := [""]]
    ensures id !in r.backMap ==> r' == r
  {
    if id in r.backMap then Resolve(r, id, "").(backVal := r.backVal) else r
  }

  /** A receive on channel `h`: it takes the buffered token, if there is one. */
  function TakeStep<V>(r: Registry<V>, h: nat): (r': Registry<V>)
    requires Inv(r) && h < |r.chans|
    ensures Inv(r')
    ensures r'.backMap == r.backMap && r'.backVal == r.backVal && r'.sent == r.sent
    ensures r'.chans == r.chans[h := if r.chans[h] == [] then [] else r.chans[h][1..]]
  {
    if r.chans[h] == [] then r
    else
      var r' := r.(chans := r.chans[h := r.chans[h][1..]]);
      assert Buffered(r'.chans[h], r'.sent[h]);
      r'
  }

  /**
   * One atomic step.
   * - Register binds the id to a new, empty channel, overwriting any earlier binding.
   * - Complete, for a pending id, stores the payload under the token, sends
   *   the token and unbinds the id; for any other id it changes nothing.
   * - Expiry, for a pending id, sends "" and unbinds the id; otherwise nothing.
   * - Claim removes the token's payload if there is one.
   * - Take receives from a channel that holds a token; on an empty one it
   *   would block and so is no step.
   */
  function Apply<V>(r: Registry<V>, e: Event<V>): (r': Registry<V>)
    requires Inv(r) && Allowed(r, e)
    ensures Inv(r')
    ensures |r'.chans| >= |r.chans|
  {
    match e
    case Register(id) => AddStep(r, id)
    case Complete(id, backData, token) => DoneStep(r, id, backData, token)
    case Expiry(id) => ExpireStep(r, id)
    case Claim(token) => r.(backVal := r.backVal - {token})
    case Take(h) => TakeStep(r, h)
  }

  /** A trace every step of which is allowed in the state it is taken in. */
  ghost predicate AllowedRun<V>(r: Registry<V>, evs: seq<Event<V>>)
    requires Inv(r)
    decreases |evs|
  {
    evs == [] || (Allowed(r, evs[0]) && AllowedRun(Apply(r, evs[0]), evs[1..]))
  }

  /** Any interleaving of the steps, in order. */
  function Run<V>(r: Registry<V>, evs: seq<Event<V>>): (r': Registry<V>)
    requires Inv(r) && AllowedRun(r, evs)
    ensures Inv(r')
    ensures |r'.chans| >= |r.chans|
    decreases |evs|
  {
    if evs == [] then r else Run(Apply(r, evs[0]), evs[1..])
  }

  /** A step that concerns the binding of `id`: it rebinds it, or resolves it if it is pending. */
  predicate Concerns<V>(e: Event<V>, id: string)
  {
    (e.Register? || e.Complete? || e.Expiry?) && e.id == id
  }

  /** What such a step sends to the channel `id` is bound to: nothing, the token, or "". */
  function Outcome<V>(e: Event<V>): seq<string>
  {
    match e
    case Complete(_, _, token) => [token]
    case Expiry(_) => [""]
    case _ => []
  }

  /**
   * What the waiter registered under `id` is sent, according to the first
   * step of the trace that concerns `id`: the token of a Done, "" for an
   * expiry, and nothing ever if the id is registered again first (the
   * earlier channel is then orphaned).
   */
  function Resolution<V>(id: string, evs: seq<Event<V>>): seq<string>
  {
    if evs == [] then []
    else if Concerns(evs[0], id) then Outcome(evs[0])
    else Resolution(id, evs[1..])
  }

  /** A step that does not concern `id` leaves its binding and its channel's history alone. */
  lemma StepKeepsBinding<V>(r: Registry<V>, id: string, e: Event<V>)
    requires Inv(r) && Allowed(r, e) && id in r.backMap && !Concerns(e, id)
    ensures id in Apply(r, e).backMap && Apply(r, e).backMap[id] == r.backMap[id]
    ensures Apply(r, e).sent[r.backMap[id]] == r.sent[r.backMap[id]]
  {
  }

  /** A step that concerns `id` sends its outcome to the channel and leaves the channel unbound. */
  lemma StepUnbinds<V>(r: Registry<V>, id: string, e: Event<V>)
    requires Inv(r) && Allowed(r, e) && id in r.backMap && Concerns(e, id)
    ensures r.backMap[id] < |Apply(r, e).sent|
    ensures Apply(r, e).sent[r.backMap[id]] == Outcome(e)
    ensures !Pending(Apply(r, e), r.backMap[id])
  {
  }

  /** A channel no id is bound to is never sent anything again. */
  lemma {:induction false} UnboundStaysQuiet<V>(r: Registry<V>, h: nat, evs: seq<Event<V>>)
    requires Inv(r) && AllowedRun(r, evs)
    requires h < |r.chans| && !Pending(r, h)
    ensures Run(r, evs).sent[h] == r.sent[h]
    decreases |evs|
  {
    if evs != [] {
      var r' := Apply(r, evs[0]);
      assert r'.sent[h] == r.sent[h];
      assert !Pending(r', h);
      UnboundStaysQuiet(r', h, evs[1..]);
    }
  }

  /**
   * Exactly-once delivery per registration: the channel `id` is bound to
   * ends up having been sent exactly Resolution(id, evs), whatever the
   * other ids, tokens and receives in the trace. In particular Done and
   * expiry exclude each other, a late one is a no-op, and no step for
   * another id ever reaches this channel.
   */
  lemma {:induction false} FirstResolutionWins<V>(r: Registry<V>, id: string, evs: seq<Event<V>>)
    requires Inv(r) && AllowedRun(r, evs) && id in r.backMap
    ensures r.backMap[id] < |Run(r, evs).sent|
    ensures Run(r, evs).sent[r.backMap[id]] == Resolution(id, evs)
    decreases |evs|
  {
    if evs != [] {
      var r' := Apply(r, evs[0]);
      assert AllowedRun(r', evs[1..]);
      assert Run(r, evs) == Run(r', evs[1..]);
      var h := r.backMap[id];
      if Concerns(evs[0], id) {
        assert Resolution(id, evs) == Outcome(evs[0]);
        StepUnbinds(r, id, evs[0]);
        UnboundStaysQuiet(r', h, evs[1..]);
      } else {
        assert Resolution(id, evs) == Resolution(id, evs[1..]);
        StepKeepsBinding(r, id, evs[0]);
        FirstResolutionWins(r', id, evs[1..]);
      }
    }
  }

  /**
   * The round trip a waiter makes: after Done(id, v) the waiter's channel
   * holds the token, GetVal of the token yields v, and a second GetVal of
   * it finds nothing.
   */
  lemma DoneThenGetVal<V>(r: Registry<V>, id: string, v: V, token: string)
    requires Inv(r) && id in r.backMap && token != "" && token !in r.backVal
    ensures var r1 := Apply(r, Complete(id, v, token));
      && r1.chans[r.backMap[id]] == [token]
      && Lookup(r1, token) == Some(v)
      && var r2 := Apply(r1, Claim(token));
      && Lookup(r2, token) == None
      && Apply(r2, Claim(token)) == r2
  {
  }

  /** `eventIdSingle`: the registry whose maps and channels its methods update under its mutex. */
  class EventIdSingle<V> {
    var backMap: map<string, nat>
    var backVal: map<string, V>
    var chans: seq<seq<string>>
    ghost var sent: seq<seq<string>>

    ghost function State(): Registry<V>
      reads this
    {
      Registry(backMap, backVal, chans, sent)
    }

    ghost predicate Valid()
      reads this
    {
      Inv(State())
    }

    /** `WithEventId`: a registry with both maps empty. */
    constructor WithEventId()
      ensures Valid() && State() == Empty()
    {
      backMap := map[];
      backVal := map[];
      chans := [];
      sent := [];
    }

    /** `AddSingle`: bind the id to a new empty channel, overwriting any earlier binding, and return the channel. */
    method AddSingle(eventId: string) returns (ch: nat)
      requires Valid()
      modifies this
      ensures Valid()
      ensures State() == Apply(old(State()), Register(eventId))
      ensures ch == |old(chans)| && chans[ch] == []
      ensures backMap == old(backMap)[eventId := ch] && backVal == old(backVal)
    {
      ch := |chans|;
      chans := chans + [[]];
      sent := sent + [[]];
      backMap := backMap[eventId := ch];
    }

    /**
     * The expiry callback AddSingle schedules: if the id is still pending,
     * send "" on its channel and unbind it; otherwise do nothing. In the
     * source the membership test reads `backMap` before taking the lock;
     * here the check and the action are one atomic step.
     */
    method Expire(eventId: string)
      requires Valid()
      modifies this
      ensures Valid()
      ensures State() == Apply(old(State()), Expiry(eventId))
      ensures eventId !in old(backMap) ==> unchanged(this)
      ensures eventId in old(backMap) ==>
        && backMap == old(backMap) - {eventId} && backVal == old(backVal)
        && chans == old(chans)[old(backMap)[eventId] := [""]]
    {
      ghost var pre := State();
      if eventId in backMap {
        var ch := backMap[eventId];
        chans := chans[ch := Send(chans[ch], "")];
        sent := sent[ch := sent[ch] + [""]];
        backMap := backMap - {eventId};
      }
      assert State() == ExpireStep(pre, eventId);
    }

    /**
     * `Done`: if the id is pending, store the payload under the fresh token,
     * send the token on the id's channel and unbind the id; otherwise do
     * nothing (the payload is dropped).
     */
    method Done(eventId: string, backData: V, token: string)
      requires Valid()
      requires token != "" && token !in backVal
      modifies this
      ensures Valid()
      ensures State() == Apply(old(State()), Complete(eventId, backData, token))
      ensures eventId !in old(backMap) ==> unchanged(this)
      ensures eventId in old(backMap) ==>
        && backMap == old(backMap) - {eventId}
        && backVal == old(backVal)[token := backData]
        && chans == old(chans)[old(backMap)[eventId] := [token]]
    {
      ghost var pre := State();
      if eventId in backMap {
        var ch := backMap[eventId];
        backVal := backVal[token := backData];
        chans := chans[ch := Send(chans[ch], token)];
        sent := sent[ch := sent[ch] + [token]];
        backMap := backMap - {eventId};
      }
      assert State() == DoneStep(pre, eventId, backData, token);
    }

    /** `GetVal`: take the payload stored under the token, once; an unknown token, "" among them, finds nothing. */
    method GetVal(token: string) returns (val: Option<V>)
      requires Valid()
      modifies this
      ensures Valid()
      ensures State() == Apply(old(State()), Claim(token))
      ensures val == Lookup(old(State()), token)
      ensures backVal == old(backVal) - {token} && backMap == old(backMap) && chans == old(chans)
    {
      if token in backVal {
        val := Some(backVal[token]);
        backVal := backVal - {token};
      } else {
        val := None;
      }
    }

    /** A receive on a channel AddSingle returned, when it holds a token: the one token ever sent on it. */
    method Receive(ch: nat) returns (token: string)
      requires Valid() && ch < |chans| && chans[ch] != []
      modifies this
      ensures Valid()
      ensures State() == Apply(old(State()), Take(ch))
      ensures token == old(chans)[ch][0] && sent[ch] == [token] && chans[ch] == []
    {
      token := chans[ch][0];
      chans := chans[ch := chans[ch][1..]];
    }
  }
}
