/** The limiter objects, the bucket map that fills itself, and the retry loop of one remote call. */
module RemoteCalls {
  import opened Types
  import opened Flow
  import opened RateLimiter

  // log is the limiter's history; nextAllowed is all the object really holds.
  class GlobalRateLimiter {
    const minInterval: nat
    var nextAllowed: int
    ghost var log: seq<Event>

    ghost predicate Valid()
      reads this
    {
      Timely(log) && nextAllowed == NextAllowed(minInterval, log)
    }

    constructor (interval: nat)
      ensures Valid() && minInterval == interval && log == []
    {
      minInterval, nextAllowed, log := interval, ZERO_TIME, [];
    }

    // The locked section of one turn of Wait's loop; wait is the nap to take when it is refused.
    method TakeSlot(now: int) returns (granted: bool, wait: int)
      requires Valid() && Clock(log) <= now
      modifies this
      ensures Valid() && log == old(log) + [Attempt(now)]
      ensures granted == Granted(minInterval, log, |log| - 1) == (NextAllowed(minInterval, old(log)) <= now)
      ensures !granted ==> wait > 0 && now + wait == nextAllowed == old(nextAllowed)
    {
      Record(log, Attempt(now));
      log := log + [Attempt(now)];
      wait := nextAllowed - now;
      granted := wait <= 0;
      if granted {
        var next := now;
        if nextAllowed > next {
          next := nextAllowed;
        }
        nextAllowed := next + minInterval;
      }
    }

    method BackOff(now: int, retryAfter: int)
      requires Valid() && Clock(log) <= now
      modifies this
      ensures Valid() && log == old(log) + [Backoff(now, retryAfter)]
    {
      Record(log, Backoff(now, retryAfter));
      log := log + [Backoff(now, retryAfter)];
      var until := now + retryAfter;
      if until > nextAllowed {
        nextAllowed := until;
      }
    }
  }

  lemma {:induction false} Record(log: seq<Event>, e: Event)
    requires Timely(log) && Clock(log) <= e.now
    ensures Timely(log + [e]) && (log + [e])[..|log|] == log && Clock(log + [e]) == e.now
  {}

  /* Wait: the recheck loop among other callers */

  // What another caller does during a nap, that much later.
  datatype Other = Tries(later: nat) | BacksOff(later: nat, retryAfter: int)

  // One nap: what others do meanwhile, how late the timer fires, whether the context ends first.
  datatype Nap = Nap(others: seq<Other>, late: nat, cancelled: bool)

  method Meanwhile(l: GlobalRateLimiter, start: int, others: seq<Other>) returns (now: int)
    requires l.Valid() && Clock(l.log) <= start
    modifies l
    ensures l.Valid() && Clock(l.log) <= now && start <= now && old(l.log) <= l.log
  {
    now := start;
    for i := 0 to |others|
      invariant l.Valid() && Clock(l.log) <= now && start <= now && old(l.log) <= l.log
    {
      match others[i]
      case Tries(later) =>
        now := now + later;
        var granted, wait := l.TakeSlot(now);
      case BacksOff(later, retryAfter) =>
        now := now + later;
        l.BackOff(now, retryAfter);
    }
  }

  // The caller slept through the first slept naps and gives up: cancelled in the next one, or none is left.
  predicate GivesUpAfter(naps: seq<Nap>, slept: nat) {
    && slept <= |naps| && (forall i | 0 <= i < slept :: !naps[i].cancelled)
    && (slept < |naps| ==> naps[slept].cancelled)
  }

  /** A successful Wait ends with the caller's own grant as the latest event, however many naps and
      whatever the others did in them. It fails for no other reason than a cancelled nap, or that the naps
      this call was given are over. */
  method Wait(l: GlobalRateLimiter, start: int, naps: seq<Nap>) returns (granted: bool, now: int, ghost slept: nat)
    requires l.Valid() && Clock(l.log) <= start
    modifies l
    ensures l.Valid() && Clock(l.log) <= now && start <= now && old(l.log) <= l.log
    ensures granted ==> |old(l.log)| < |l.log| && OwnGrant(l.minInterval, l.log, |l.log| - 1, now)
    ensures granted ==> slept <= |naps| && forall i | 0 <= i < slept :: !naps[i].cancelled
    ensures !granted ==> GivesUpAfter(naps, slept)
    ensures NextAllowed(l.minInterval, old(l.log)) <= start ==> granted && now == start && slept == 0
  {
    now := start;
    var i := 0;
    while true
      invariant i <= |naps| && forall j | 0 <= j < i :: !naps[j].cancelled
      invariant i == 0 ==> now == start && l.log == old(l.log)
      invariant i > 0 ==> NextAllowed(l.minInterval, old(l.log)) > start
      invariant l.Valid() && Clock(l.log) <= now && start <= now && old(l.log) <= l.log
      decreases |naps| - i
    {
      var wait;
      granted, wait := l.TakeSlot(now);
      slept := i;
      if granted || i == |naps| {
        return;
      }
      var woken := Meanwhile(l, now, naps[i].others);
      if naps[i].cancelled {
        return false, woken, i;
      }
      now := (if now + wait > woken then now + wait else woken) + naps[i].late;
      i := i + 1;
    }
  }

  ghost predicate OwnGrant(minInterval: nat, log: seq<Event>, slot: nat, now: int) {
    slot < |log| && log[slot] == Attempt(now) && Granted(minInterval, log, slot)
  }

  lemma {:induction false} OwnGrantStays(minInterval: nat, log: seq<Event>, slot: nat, now: int, log': seq<Event>)
    requires OwnGrant(minInterval, log, slot, now) && log <= log'
    ensures OwnGrant(minInterval, log', slot, now)
  {
    assert log'[..slot] == log[..slot];
  }

  /* runRemote */

  const MAX_REMOTE_RETRIES: nat := 5

  datatype Answer = Done(id: Id) | RateLimited(retryAfter: int) | Failed

  // One turn of the retry loop: the naps in Wait, how long Apply took, what others did meanwhile.
  datatype Turn = Turn(naps: seq<Nap>, others: seq<Other>, took: nat, answer: Answer)

  datatype Outcome = Succeeded(id: Id) | GaveUp | Errored

  // starts[i] took its own slot, and later ones later slots.
  ghost predicate OwnSlots(minInterval: nat, log: seq<Event>, slots: seq<nat>, starts: seq<int>) {
    && |slots| == |starts|
    && (forall i | 0 <= i < |slots| :: OwnGrant(minInterval, log, slots[i], starts[i]))
    && forall i, j | 0 <= i < j < |slots| :: slots[i] < slots[j]
  }

  lemma {:induction false} OwnSlotsStay(minInterval: nat, log: seq<Event>, slots: seq<nat>, starts: seq<int>,
                                        log': seq<Event>)
    requires OwnSlots(minInterval, log, slots, starts) && log <= log'
    ensures OwnSlots(minInterval, log', slots, starts)
  {
    forall i | 0 <= i < |slots| ensures OwnGrant(minInterval, log', slots[i], starts[i]) {
      OwnGrantStays(minInterval, log, slots[i], starts[i], log');
    }
  }

  // What one turn leaves in the history: its grant, and after a 429 its backoff as the latest event.
  ghost predicate TurnLogged(minInterval: nat, log: seq<Event>, slot: nat, at: int, end: int, answer: Answer) {
    && OwnGrant(minInterval, log, slot, at)
    && (answer.RateLimited? ==> slot < |log| - 1 && log[|log| - 1] == Backoff(end, answer.retryAfter))
  }

  // The body of the loop: a slot, the call, and the backoff if Stoat says 429.
  method TakeTurn(l: GlobalRateLimiter, start: int, turn: Turn)
    returns (granted: bool, at: int, end: int, ghost slot: nat, ghost slept: nat)
    requires l.Valid() && Clock(l.log) <= start
    modifies l
    ensures l.Valid() && old(l.log) <= l.log && Clock(l.log) <= end && start <= at <= end
    ensures granted ==> |old(l.log)| <= slot && TurnLogged(l.minInterval, l.log, slot, at, end, turn.answer)
    ensures !granted ==> GivesUpAfter(turn.naps, slept)
  {
    granted, at, slept := Wait(l, start, turn.naps);
    end := at;
    slot := |l.log|;
    if !granted {
      return;
    }
    slot := |l.log| - 1;
    ghost var waited := l.log;
    end := Meanwhile(l, at, turn.others);
    end := end + turn.took;
    if turn.answer.RateLimited? {
      l.BackOff(end, turn.answer.retryAfter);
    }
    OwnGrantStays(l.minInterval, waited, slot, at, l.log);
  }

  // The next turn keeps its distance from one that ended in a 429.
  lemma {:induction false} TurnsKeepTheirDistance(minInterval: nat, log: seq<Event>, slot: nat, at: int, end: int,
                                                  answer: Answer, log': seq<Event>, slot': nat, at': int)
    requires Timely(log') && log <= log' && |log| <= slot' && answer.RateLimited?
    requires TurnLogged(minInterval, log, slot, at, end, answer) && OwnGrant(minInterval, log', slot', at')
    ensures at' >= at + minInterval && at' >= end + answer.retryAfter
  {
    OwnGrantStays(minInterval, log, slot, at, log');
    GrantsKeepTheirDistance(minInterval, log', slot, slot');
    GrantsKeepTheirDistance(minInterval, log', |log| - 1, slot');
  }

  ghost predicate Spaced(minInterval: nat, turns: seq<Turn>, starts: seq<int>, answered: seq<int>)
    requires |starts| == |answered| <= |turns|
  {
    forall i | 0 <= i < |starts| - 1 ::
      && turns[i].answer.RateLimited?
      && starts[i + 1] >= starts[i] + minInterval && starts[i + 1] >= answered[i] + turns[i].answer.retryAfter
  }

  // The turns taken so far, all ended by a 429 but possibly the last.
  ghost predicate Taken(minInterval: nat, floor: nat, log: seq<Event>, start: int, turns: seq<Turn>, slots: seq<nat>,
                        starts: seq<int>, answered: seq<int>)
    requires |starts| == |answered| <= |turns|
  {
    && OwnSlots(minInterval, log, slots, starts)
    && (forall i | 0 <= i < |slots| :: floor <= slots[i] < |log|)
    && (forall i | 0 <= i < |starts| :: start <= starts[i] <= answered[i])
    && Spaced(minInterval, turns, starts, answered)
  }

  lemma {:induction false} TurnAdded(minInterval: nat, floor: nat, log: seq<Event>, start: int, turns: seq<Turn>,
                                     slots: seq<nat>, starts: seq<int>, answered: seq<int>, log': seq<Event>,
                                     slot: nat, at: int, end: int)
    requires |starts| == |answered| < |turns| && Taken(minInterval, floor, log, start, turns, slots, starts, answered)
    requires Timely(log') && log <= log' && floor <= |log| <= slot && OwnGrant(minInterval, log', slot, at)
    requires start <= at <= end
    requires starts != [] ==>
      var n := |starts| - 1;
      turns[n].answer.RateLimited? && TurnLogged(minInterval, log, slots[n], starts[n], answered[n], turns[n].answer)
    ensures Taken(minInterval, floor, log', start, turns, slots + [slot], starts + [at], answered + [end])
  {
    SlotAdded(minInterval, log, slots, starts, log', slot, at);
    if starts != [] {
      var n := |starts| - 1;
      TurnsKeepTheirDistance(minInterval, log, slots[n], starts[n], answered[n], turns[n].answer, log', slot, at);
    }
    SpacingAdded(minInterval, turns, starts, answered, at, end);
  }

  lemma {:induction false} SlotAdded(minInterval: nat, log: seq<Event>, slots: seq<nat>, starts: seq<int>,
                                     log': seq<Event>, slot: nat, at: int)
    requires OwnSlots(minInterval, log, slots, starts) && log <= log' && |log| <= slot
    requires OwnGrant(minInterval, log', slot, at)
    ensures OwnSlots(minInterval, log', slots + [slot], starts + [at])
  {
    OwnSlotsStay(minInterval, log, slots, starts, log');
    assert forall i | 0 <= i < |slots| :: OwnGrant(minInterval, log, slots[i], starts[i]);
  }

  lemma {:induction false} SpacingAdded(minInterval: nat, turns: seq<Turn>, starts: seq<int>, answered: seq<int>,
                                        at: int, end: int)
    requires |starts| == |answered| < |turns| && Spaced(minInterval, turns, starts, answered)
    requires starts != [] ==>
      var n := |starts| - 1;
      turns[n].answer.RateLimited? && at >= starts[n] + minInterval && at >= answered[n] + turns[n].answer.retryAfter
    ensures Spaced(minInterval, turns, starts + [at], answered + [end])
  {}

  /** At most six attempts, each in its own slot; after a 429 the next one starts no sooner than the
      interval after the last start and Retry-After after the answer. A 429 is retried, any other answer
      ends the loop, and so does a Wait that gives up; nothing else makes it fail. */
  method RunRemote(l: GlobalRateLimiter, start: int, turns: seq<Turn>)
    returns (outcome: Outcome, starts: seq<int>, answered: seq<int>, ghost slept: nat)
    requires l.Valid() && Clock(l.log) <= start && |turns| == MAX_REMOTE_RETRIES + 1
    modifies l
    ensures l.Valid() && old(l.log) <= l.log
    ensures |starts| == |answered| <= 6
    ensures exists slots :: Taken(l.minInterval, |old(l.log)|, l.log, start, turns, slots, starts, answered)
    ensures outcome.Succeeded? ==> |starts| > 0 && turns[|starts| - 1].answer == Done(outcome.id)
    ensures outcome.GaveUp? ==> |starts| == 6 && turns[|turns| - 1].answer.RateLimited?
    ensures outcome.Errored? ==>
      || (|starts| > 0 && turns[|starts| - 1].answer.Failed?)
      || (|starts| < |turns| && GivesUpAfter(turns[|starts|].naps, slept)
          && (|starts| > 0 ==> turns[|starts| - 1].answer.RateLimited?))
  {
    outcome, starts, answered, slept := GaveUp, [], [], 0;
    ghost var slots: seq<nat>, floor := [], |l.log|;
    var now := start;
    for attempt := 0 to MAX_REMOTE_RETRIES + 1
      invariant l.Valid() && Clock(l.log) <= now && old(l.log) <= l.log && start <= now
      invariant |starts| == |answered| == attempt && outcome.GaveUp?
      invariant Taken(l.minInterval, floor, l.log, start, turns, slots, starts, answered)
      invariant attempt > 0 ==> turns[attempt - 1].answer.RateLimited?
      invariant attempt > 0 ==>
        TurnLogged(l.minInterval, l.log, slots[attempt - 1], starts[attempt - 1], answered[attempt - 1],
                   turns[attempt - 1].answer)
    {
      ghost var before := l.log;
      var granted, at;
      ghost var slot: nat;
      granted, at, now, slot, slept := TakeTurn(l, now, turns[attempt]);
      if !granted {
        TakenStays(l.minInterval, floor, before, start, turns, slots, starts, answered, l.log);
        outcome := Errored;
        break;
      }
      TurnAdded(l.minInterval, floor, before, start, turns, slots, starts, answered, l.log, slot, at, now);
      starts, answered, slots := starts + [at], answered + [now], slots + [slot];
      match turns[attempt].answer
      case Done(id) =>
        outcome := Succeeded(id);
        break;
      case Failed =>
        outcome := Errored;
        break;
      case RateLimited(_) =>
    }
  }

  lemma {:induction false} TakenStays(minInterval: nat, floor: nat, log: seq<Event>, start: int, turns: seq<Turn>,
                                      slots: seq<nat>, starts: seq<int>, answered: seq<int>, log': seq<Event>)
    requires |starts| == |answered| <= |turns|
    requires Taken(minInterval, floor, log, start, turns, slots, starts, answered) && log <= log'
    ensures Taken(minInterval, floor, log', start, turns, slots, starts, answered)
  {
    OwnSlotsStay(minInterval, log, slots, starts, log');
  }

  /* The bucket map */

  // strings.Cut(key, ":"), first part.
  function BucketName(key: string): string {
    if key == "" || key[0] == ':' then "" else [key[0]] + BucketName(key[1..])
  }

  function BucketKey(op: Op): string {
    match op.key.kind
    case RoleEntity => "servers"
    case CategoryEntity => "servers"
    case ServerEntity => "servers"
    case ChannelEntity => "channels:" + op.key.id
    case MessageEntity => "messaging:" + op.channelID
    case EmojiEntity => "any"
  }

  class BucketedRateLimiter {
    const intervals: map<string, nat>
    const defaultInterval: nat
    var limiters: map<string, GlobalRateLimiter>

    function IntervalOf(key: string): nat {
      if BucketName(key) in intervals then intervals[BucketName(key)] else defaultInterval
    }

    ghost predicate Valid()
      reads this, limiters.Values
    {
      && (forall k | k in limiters :: limiters[k].Valid() && limiters[k].minInterval == IntervalOf(k))
      && InjectiveMap(limiters)
    }

    /** The total map of independent limiters this stands for: a key never asked for has an empty history. */
    ghost function History(key: string): seq<Event>
      reads this, limiters.Values
    {
      if key in limiters then limiters[key].log else []
    }

    constructor (intervals: map<string, nat>, defaultInterval: nat)
      ensures Valid() && this.intervals == intervals && this.defaultInterval == defaultInterval
      ensures forall k :: History(k) == []
    {
      this.intervals, this.defaultInterval, limiters := intervals, defaultInterval, map[];
    }

    method SubLimiter(key: string) returns (l: GlobalRateLimiter)
      requires Valid()
      modifies this
      ensures Valid() && key in limiters && limiters[key] == l
      ensures forall k | k in old(limiters) :: k in limiters && limiters[k] == old(limiters[k])
      ensures forall k | k in limiters :: k in old(limiters) || (k == key && fresh(l))
      ensures forall k :: History(k) == old(History(k))
    {
      if key in limiters {
        return limiters[key];
      }
      var name := BucketName(key);
      var interval := if name in intervals then intervals[name] else defaultInterval;
      l := new GlobalRateLimiter(interval);
      limiters := limiters[key := l];
    }

    // Only key's limiter has changed: every other key's history is what it was.
    twostate lemma OneLimiterMoved(key: string)
      requires old(Valid()) && limiters == old(limiters) && key in limiters && limiters[key].Valid()
      requires forall l: GlobalRateLimiter | l in limiters.Values && l != limiters[key] :: unchanged(l)
      ensures Valid() && forall k | k != key :: History(k) == old(History(k))
    {
      forall k | k in limiters && k != key ensures limiters[k].Valid() && limiters[k].log == old(limiters[k].log) {
        assert limiters[k] in limiters.Values && limiters[k] != limiters[key];
      }
    }

    method TakeSlot(key: string, now: int) returns (granted: bool, wait: int)
      requires Valid() && Clock(History(key)) <= now
      modifies this, limiters.Values
      ensures Valid() && History(key) == old(History(key)) + [Attempt(now)]
      ensures forall k | k != key :: History(k) == old(History(k))
      ensures granted <==> NextAllowed(IntervalOf(key), old(History(key))) <= now
    {
      var l := SubLimiter(key);
      label Found:
      granted, wait := l.TakeSlot(now);
      OneLimiterMoved@Found(key);
    }

    method BackOff(key: string, now: int, retryAfter: int)
      requires Valid() && Clock(History(key)) <= now
      modifies this, limiters.Values
      ensures Valid() && History(key) == old(History(key)) + [Backoff(now, retryAfter)]
      ensures forall k | k != key :: History(k) == old(History(k))
    {
      var l := SubLimiter(key);
      label Found:
      l.BackOff(now, retryAfter);
      OneLimiterMoved@Found(key);
    }
  }

  lemma {:induction false} NameBeforeColon(name: string, rest: string)
    requires ':' !in name
    ensures BucketName(name + ":" + rest) == name && BucketName(name) == name
  {
    var key := name + ":" + rest;
    if name != "" {
      NameBeforeColon(name[1..], rest);
      assert key[1..] == name[1..] + ":" + rest;
    } else {
      assert key[0] == ':';
    }
  }

  predicate ServerWide(kind: EntityType) {
    kind.RoleEntity? || kind.CategoryEntity? || kind.ServerEntity?
  }

  predicate SharesBucket(op: Op, other: Op) {
    || (ServerWide(op.key.kind) && ServerWide(other.key.kind))
    || (op.key.kind.ChannelEntity? && other.key.kind.ChannelEntity? && op.key.id == other.key.id)
    || (op.key.kind.MessageEntity? && other.key.kind.MessageEntity? && op.channelID == other.channelID)
    || (op.key.kind.EmojiEntity? && other.key.kind.EmojiEntity?)
  }

  // The bucket's interval is the one configured for this name.
  lemma {:induction false} BucketNames(op: Op)
    ensures BucketName(BucketKey(op)) ==
      match op.key.kind
      case ChannelEntity => "channels"
      case MessageEntity => "messaging"
      case EmojiEntity => "any"
      case _ => "servers"
  {
    match op.key.kind {
      case ChannelEntity =>
        assert BucketKey(op) == "channels" + ":" + op.key.id;
        NameBeforeColon("channels", op.key.id);
      case MessageEntity =>
        assert BucketKey(op) == "messaging" + ":" + op.channelID;
        NameBeforeColon("messaging", op.channelID);
      case EmojiEntity => NameBeforeColon("any", "");
      case _ => NameBeforeColon("servers", "");
    }
  }

  /** Who paces whom: server metadata shares one bucket, channels and messages have one per channel. */
  lemma {:induction false} BucketsByChannel(op: Op, other: Op)
    ensures BucketKey(op) == BucketKey(other) <==> SharesBucket(op, other)
  {
    BucketNames(op);
    BucketNames(other);
    if op.key.kind.ChannelEntity? && other.key.kind.ChannelEntity? {
      assert BucketKey(op)[9..] == op.key.id && BucketKey(other)[9..] == other.key.id;
    }
    if op.key.kind.MessageEntity? && other.key.kind.MessageEntity? {
      assert BucketKey(op)[10..] == op.channelID && BucketKey(other)[10..] == other.channelID;
    }
    NamesDiffer();
  }

  /** With the intervals main configures, roles, categories and the server share two seconds, each channel has 0.7
      of its own, each channel's messages one, anything else half a second. */
  lemma {:induction false} ConfiguredIntervals(l: BucketedRateLimiter, op: Op)
    requires l.intervals == map["servers" := 2000, "channels" := 700, "messaging" := 1000] && l.defaultInterval == 500
    ensures l.IntervalOf(BucketKey(op)) ==
      match op.key.kind
      case ChannelEntity => 700
      case MessageEntity => 1000
      case EmojiEntity => 500
      case _ => 2000
  {
    BucketNames(op);
    NamesDiffer();
  }

  lemma {:induction false} NamesDiffer()
    ensures "channels" != "messaging" && "channels" != "any" && "channels" != "servers"
    ensures "messaging" != "any" && "messaging" != "servers" && "any" != "servers"
  {
    assert "channels"[0] == 'c' && "messaging"[0] == 'm' && "any"[0] == 'a' && "servers"[0] == 's';
  }
}
