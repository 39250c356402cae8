/**
 * At-most-once origination: the client's retry loop (backend/app/telephony/ari.py) against a server that refuses
 * a second channel with an identity in use (backend/app/telephony/fake.py), over a network that loses requests
 * and responses.
 */
module Origination {
  import Common

  type ChannelId = nat

  // -------------------------------------------------------------------- what a server has done

  datatype Act = Created(id: ChannelId) | Destroyed(id: ChannelId)

  /** The channels standing after a history. */
  function Standing(h: seq<Act>): set<ChannelId> {
    if h == [] then {}
    else
      match h[|h| - 1]
      case Created(id) => Standing(h[..|h| - 1]) + {id}
      case Destroyed(id) => Standing(h[..|h| - 1]) - {id}
  }

  /** No channel is created while it stands, or destroyed while it does not. */
  ghost predicate Possible(h: seq<Act>) {
    h != [] ==>
      && Possible(h[..|h| - 1])
      && match h[|h| - 1]
         case Created(id) => id !in Standing(h[..|h| - 1])
         case Destroyed(id) => id in Standing(h[..|h| - 1])
  }

  function Creates(h: seq<Act>, id: ChannelId): nat {
    if h == [] then 0 else Creates(h[..|h| - 1], id) + (if h[|h| - 1] == Created(id) then 1 else 0)
  }

  function Destroys(h: seq<Act>, id: ChannelId): nat {
    if h == [] then 0 else Destroys(h[..|h| - 1], id) + (if h[|h| - 1] == Destroyed(id) then 1 else 0)
  }

  /** Channels are conserved: those created are those destroyed, and the one that may be standing. */
  lemma {:induction false} ChannelsAreConserved(h: seq<Act>, id: ChannelId)
    requires Possible(h)
    ensures Creates(h, id) == Destroys(h, id) + (if id in Standing(h) then 1 else 0)
  {
    if h != [] { ChannelsAreConserved(h[..|h| - 1], id); }
  }

  lemma Appended(h: seq<Act>, act: Act, id: ChannelId)
    ensures Standing(h + [act]) == if act.Created? then Standing(h) + {act.id} else Standing(h) - {act.id}
    ensures Creates(h + [act], id) == Creates(h, id) + (if act == Created(id) then 1 else 0)
    ensures Destroys(h + [act], id) == Destroys(h, id) + (if act == Destroyed(id) then 1 else 0)
    ensures Possible(h + [act]) <==> Possible(h) && (act.Created? <==> act.id !in Standing(h))
  {
    assert (h + [act])[..|h|] == h;
  }

  // ---------------------------------------------------------------------------- the network

  /** What becomes of one request. `ServerError` is a 5xx answer, whether or not the channel was made first. */
  datatype Fate = Delivered | RequestLost | ResponseLost | ServerError(processed: bool) | Rejected

  datatype Reply = Ok | Conflict | Failed | BadRequest | Silence

  class Asterisk {
    var channels: set<ChannelId>
    ghost var history: seq<Act>

    constructor ()
      ensures Valid() && channels == {} && history == []
    {
      channels := {};
      history := [];
    }

    ghost predicate Valid()
      reads this
    {
      channels == Standing(history) && Possible(history)
    }

    /** `POST /channels`: an identity in use is a conflict, never a second channel. */
    method Post(id: ChannelId, fate: Fate) returns (reply: Reply)
      requires Valid()
      modifies this
      ensures Valid()
      ensures
        var processed := fate.Delivered? || fate.ResponseLost? || (fate.ServerError? && fate.processed);
        && history == (if processed && id !in old(channels) then old(history) + [Created(id)] else old(history))
        && channels == (if processed then old(channels) + {id} else old(channels))
      ensures reply.Ok? <==> fate.Delivered? && id !in old(channels)
      ensures reply.Conflict? <==> fate.Delivered? && id in old(channels)
      ensures reply.Failed? <==> fate.ServerError?
      ensures reply.BadRequest? <==> fate.Rejected?
    {
      match fate {
        case RequestLost => reply := Silence;
        case Rejected => reply := BadRequest;
        case ServerError(processed) =>
          if processed { var _ := Create(id); }
          reply := Failed;
        case ResponseLost =>
          var _ := Create(id);
          reply := Silence;
        case Delivered =>
          var made := Create(id);
          reply := if made then Ok else Conflict;
      }
    }

    method Create(id: ChannelId) returns (made: bool)
      requires Valid()
      modifies this
      ensures Valid() && made == (id !in old(channels))
      ensures channels == old(channels) + {id}
      ensures history == if made then old(history) + [Created(id)] else old(history)
    {
      made := id !in channels;
      if made {
        Appended(history, Created(id), id);
        channels, history := channels + {id}, history + [Created(id)];
      }
    }

    /** The far end, or an operator, ends the channel if it stands. */
    method Hangup(id: ChannelId)
      requires Valid()
      modifies this
      ensures Valid() && channels == old(channels) - {id}
      ensures history == if id in old(channels) then old(history) + [Destroyed(id)] else old(history)
    {
      if id in channels {
        Appended(history, Destroyed(id), id);
        channels, history := channels - {id}, history + [Destroyed(id)];
      }
    }
  }

  // ----------------------------------------------------------------------------- the client

  /** What others do to a channel while a client works on it: the far end or an operator hangs up, or another worker
      posts the same identity. */
  datatype Meddling = HangsUp | OtherPost(fate: Fate)

  /** All the network and the others may do: the fate of each request, and what happens before each request and, past
      the last one, before the lookup. */
  datatype Adversary = Adversary(fate: nat -> Fate, before: nat -> seq<Meddling>, answersLookup: bool)

  /** `Unknown` and `Refused` are the two errors raised. */
  datatype Outcome = Placed | AlreadyThere | Unknown | Refused

  /** `h` has grown by acts on `id` alone. */
  ghost predicate GrewBy(before: seq<Act>, after: seq<Act>, id: ChannelId) {
    && |before| <= |after| && after[..|before|] == before
    && forall i :: |before| <= i < |after| ==> after[i].id == id
  }

  lemma {:induction false} OthersUntouched(before: seq<Act>, after: seq<Act>, id: ChannelId, other: ChannelId)
    requires GrewBy(before, after, id) && other != id
    ensures other in Standing(after) <==> other in Standing(before)
    ensures Creates(after, other) == Creates(before, other)
    decreases |after|
  {
    if |after| == |before| {
      assert after == before;
    } else {
      var shorter := after[..|after| - 1];
      assert shorter[..|before|] == before;
      OthersUntouched(before, shorter, id, other);
      assert after[|after| - 1].id == id;
    }
  }

  /** The others, one after the other. */
  method Meddle(server: Asterisk, id: ChannelId, others: seq<Meddling>)
    requires server.Valid()
    modifies server
    ensures server.Valid() && GrewBy(old(server.history), server.history, id)
  {
    for k := 0 to |others|
      invariant server.Valid() && GrewBy(old(server.history), server.history, id)
    {
      match others[k] {
        case HangsUp => server.Hangup(id);
        case OtherPost(fate) => var _ := server.Post(id, fate);
      }
    }
  }

  /** One request of the loop, after whatever the others did. */
  method Attempt(server: Asterisk, id: ChannelId, world: Adversary, k: nat) returns (reply: Reply)
    requires server.Valid()
    modifies server
    ensures server.Valid() && GrewBy(old(server.history), server.history, id)
    ensures reply.Ok? || reply.Conflict? <==> world.fate(k).Delivered?
    ensures reply.BadRequest? <==> world.fate(k).Rejected?
    ensures reply.Ok? ==> server.history != [] && server.history[|server.history| - 1] == Created(id)
    ensures reply.Ok? || reply.Conflict? ==> id in server.channels
  {
    Meddle(server, id, world.before(k));
    reply := server.Post(id, world.fate(k));
  }

  /** None of the first `n` requests was both received and answered, nor refused outright. */
  predicate Undecided(world: Adversary, n: nat) {
    forall j :: 1 <= j <= n ==> !world.fate(j).Rejected? && !world.fate(j).Delivered?
  }

  /** One of the first `n` requests is received and answered, and none before it is refused. */
  ghost predicate GetsThrough(world: Adversary, n: nat) {
    exists k :: 1 <= k <= n && world.fate(k).Delivered? && forall j :: 1 <= j < k ==> !world.fate(j).Rejected?
  }

  /** Places one call, with one request and at most `maxRetries` more, retrying while the outcome is uncertain and
      asking the server when retries run out. */
  method Originate(server: Asterisk, id: ChannelId, maxRetries: int, world: Adversary)
    returns (outcome: Outcome, attempts: nat)
    requires server.Valid()
    modifies server
    ensures server.Valid() && GrewBy(old(server.history), server.history, id)
    ensures 1 <= attempts && (maxRetries > 0 ==> attempts <= maxRetries + 1) && (maxRetries <= 0 ==> attempts == 1)
    ensures outcome in {Placed, AlreadyThere} ==> id in server.channels
    ensures outcome.Placed? ==> server.history != [] && server.history[|server.history| - 1] == Created(id)
    ensures outcome.Unknown? ==> attempts > maxRetries && (id !in server.channels || !world.answersLookup)
    ensures outcome.Refused? ==> world.fate(attempts).Rejected?
    ensures GetsThrough(world, if maxRetries > 0 then maxRetries + 1 else 1) ==> outcome in {Placed, AlreadyThere}
  {
    attempts := 0;
    while true
      invariant server.Valid() && GrewBy(old(server.history), server.history, id)
      invariant 0 <= attempts <= Common.Max(maxRetries, 0)
      invariant Undecided(world, attempts)
      decreases maxRetries - attempts
    {
      attempts := attempts + 1;
      var reply := Attempt(server, id, world, attempts);
      match reply {
        case Ok => return Placed, attempts;
        case Conflict => return AlreadyThere, attempts;
        case BadRequest => return Refused, attempts;
        case _ =>
          if attempts > maxRetries {
            Meddle(server, id, world.before(attempts + 1));
            outcome := if world.answersLookup && id in server.channels then AlreadyThere else Unknown;
            return;
          }
      }
    }
  }

  /**
   * However often and over whatever network a call is originated, its channel is created no more often than it
   * was destroyed in between, and once more. If nobody hangs up, there is one channel; and one that stood before
   * is never created again.
   */
  lemma AtMostOneChannel(before: seq<Act>, after: seq<Act>, id: ChannelId)
    requires Possible(before) && Possible(after)
    ensures Creates(after, id) <= Destroys(after, id) + 1
    ensures Destroys(after, id) == Destroys(before, id) ==> Creates(after, id) <= Creates(before, id) + 1
    ensures Destroys(after, id) == Destroys(before, id) && id in Standing(before) ==>
            Creates(after, id) <= Creates(before, id)
    ensures Destroys(after, id) == Destroys(before, id) && id !in Standing(before) && id in Standing(after) ==>
              Creates(after, id) == Creates(before, id) + 1
  {
    ChannelsAreConserved(before, id);
    ChannelsAreConserved(after, id);
  }

  /** A call originated twice, while other workers post the same identity in between any two requests: as long as
      nobody hangs up, all of them together dial it once. */
  method OriginateTwice(server: Asterisk, id: ChannelId, maxRetries: int, first: Adversary, second: Adversary)
    returns (one: Outcome, two: Outcome)
    requires server.Valid() && id !in server.channels
    modifies server
    ensures server.Valid()
    ensures Destroys(server.history, id) == Destroys(old(server.history), id) ==>
              && Creates(server.history, id) <= Creates(old(server.history), id) + 1
              && (one in {Placed, AlreadyThere} || two in {Placed, AlreadyThere} ==>
                  Creates(server.history, id) == Creates(old(server.history), id) + 1)
  {
    ghost var start := server.history;
    var n;
    one, n := Originate(server, id, maxRetries, first);
    ghost var middle := server.history;
    two, n := Originate(server, id, maxRetries, second);
    DestroysGrow(start, middle, id);
    DestroysGrow(middle, server.history, id);
    AtMostOneChannel(start, middle, id);
    AtMostOneChannel(middle, server.history, id);
    AtMostOneChannel(start, server.history, id);
  }

  lemma {:induction false} DestroysGrow(before: seq<Act>, after: seq<Act>, id: ChannelId)
    requires GrewBy(before, after, id)
    ensures Destroys(before, id) <= Destroys(after, id)
    ensures Creates(before, id) <= Creates(after, id)
    decreases |after|
  {
    if |after| == |before| {
      assert after == before;
    } else {
      var shorter := after[..|after| - 1];
      assert shorter[..|before|] == before;
      DestroysGrow(before, shorter, id);
    }
  }
}
