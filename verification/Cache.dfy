/**
  The shared control-context cache (worker/adapters/redis/control_context_cache.py)
  and the rebuild loop on top of it
  (worker/application/resolve_control_context.py), for any number of builders
  in any number of processes.  Each Redis command or script is one atomic
  operation on the store; Redis loses no data, and owner tokens are fresh.
*/
module Cache {
  import opened Prelude

  datatype Key = Key(tenant: string, release: string, generation: int)

  /** A context as far as agreement on it matters. */
  datatype Context = Context(generation: int, content: string)

  /** What the context key holds: an encoding of a context, or bytes that do not decode. */
  datatype Payload = Encoded(context: Context) | Undecodable

  type Token = int
  datatype Lock = Lock(token: Token, expiresAt: Time)

  datatype Store = Store(now: Time, locks: map<Key, Lock>, contexts: map<Key, Payload>)

  /** The rebuild lock is held by `token`: set, and not yet expired. */
  predicate Holds(s: Store, key: Key, token: Token) {
    key in s.locks && s.locks[key].token == token && s.now < s.locks[key].expiresAt
  }

  predicate Locked(s: Store, key: Key) { key in s.locks && s.now < s.locks[key].expiresAt }

  /** `ex=max(1, math.ceil(lease_seconds))`. */
  function Ttl(leaseSeconds: Time): Time {
    var ceil := -((-leaseSeconds).Floor as Time);
    if ceil < 1.0 then 1.0 else ceil
  }

  /** SET NX EX. */
  function Acquire(s: Store, key: Key, token: Token, leaseSeconds: Time): Store {
    if Locked(s, key) then s else s.(locks := s.locks[key := Lock(token, s.now + Ttl(leaseSeconds))])
  }

  /** _PUBLISH_IF_OWNER. */
  function Publish(s: Store, key: Key, token: Token, payload: Payload): Store {
    if Holds(s, key, token) then s.(contexts := s.contexts[key := payload]) else s
  }

  /** _RELEASE_IF_OWNER. */
  function Release(s: Store, key: Key, token: Token): Store {
    if Holds(s, key, token) then s.(locks := s.locks - {key}) else s
  }

  /** `_read_cached`: nothing there, a context of the key's generation, or an error. */
  datatype Reading = Absent | Found(context: Context) | Invalid

  function ReadCached(s: Store, key: Key): Reading {
    if key !in s.contexts then Absent
    else if s.contexts[key].Undecodable? then Invalid
    else if s.contexts[key].context.generation != key.generation then Invalid
    else Found(s.contexts[key].context)
  }

  // --------------------------------------------------------------- builders

  datatype Pc =
    | Polling
    | Acquiring
    | Checking(token: Token)
    | Building(token: Token)
    | Publishing(token: Token, built: Context)
    | Releasing(token: Token, outcome: Option<Context>)  // None: an exception is on its way
    | Waiting
    | Returned(context: Context)
    | Raised

  datatype Builder = Builder(key: Key, pc: Pc)

  type BuilderId = int

  /** `issued`, `publishedBy` and `published` record what happened; nobody reads them. */
  datatype Fleet = Fleet(
    store: Store,
    builders: map<BuilderId, Builder>,
    issued: map<Token, BuilderId>,
    published: map<Key, seq<Context>>)

  function PublishedFor(f: Fleet, key: Key): seq<Context> {
    if key in f.published then f.published[key] else []
  }

  datatype Answer = Answered | Lost  // Lost: the command took effect, the reply never came

  datatype Action =
    | Start(id: BuilderId, key: Key)
    | Tick(now: Time)
    | Crash(id: BuilderId)
    | Fail(id: BuilderId)                       // a Redis error before the command, a timeout, a failed build, a cancellation
    | Read(id: BuilderId)
    | TryAcquire(id: BuilderId, token: Token, answer: Answer, leaseSeconds: Time)
    | Recheck(id: BuilderId)
    | Build(id: BuilderId, content: string)
    | Put(id: BuilderId, answer: Answer)
    | LetGo(id: BuilderId, answer: Answer)
    | Sleep(id: BuilderId)

  function Actor(a: Action): Option<BuilderId> {
    match a
    case Start(id, _) => Some(id)
    case Tick(_) => None
    case Crash(id) => Some(id)
    case Fail(id) => Some(id)
    case Read(id) => Some(id)
    case TryAcquire(id, _, _, _) => Some(id)
    case Recheck(id) => Some(id)
    case Build(id, _) => Some(id)
    case Put(id, _) => Some(id)
    case LetGo(id, _) => Some(id)
    case Sleep(id) => Some(id)
  }

  predicate At(f: Fleet, id: BuilderId, here: Pc -> bool) {
    id in f.builders && here(f.builders[id].pc)
  }

  predicate Enabled(f: Fleet, a: Action) {
    match a
    case Start(id, _) => id !in f.builders
    case Tick(now) => f.store.now <= now
    case Crash(id) => id in f.builders
    case Fail(id) => id in f.builders && !f.builders[id].pc.Returned?
    case Read(id) => At(f, id, (pc: Pc) => pc.Polling?)
    case TryAcquire(id, token, _, _) => At(f, id, (pc: Pc) => pc.Acquiring?) && token !in f.issued
    case Recheck(id) => At(f, id, (pc: Pc) => pc.Checking?)
    case Build(id, _) => At(f, id, (pc: Pc) => pc.Building?)
    case Put(id, _) => At(f, id, (pc: Pc) => pc.Publishing?)
    case LetGo(id, _) => At(f, id, (pc: Pc) => pc.Releasing?)
    case Sleep(id) => At(f, id, (pc: Pc) => pc.Waiting?)
  }

  function Move(f: Fleet, id: BuilderId, pc: Pc): Fleet
    requires id in f.builders
  {
    f.(builders := f.builders[id := f.builders[id].(pc := pc)])
  }

  /** An exception inside the leased section goes through the release; elsewhere it is raised at once. */
  function AfterFailure(pc: Pc): Pc {
    match pc
    case Checking(token) => Releasing(token, None)
    case Building(token) => Releasing(token, None)
    case Publishing(token, _) => Releasing(token, None)
    case _ => Raised
  }

  function After(f: Fleet, a: Action): Fleet
    requires Enabled(f, a)
  {
    match a
    case Start(id, key) => f.(builders := f.builders[id := Builder(key, Polling)])
    case Tick(now) => f.(store := f.store.(now := now))
    case Crash(id) => f.(builders := f.builders - {id})
    case Fail(id) => Move(f, id, AfterFailure(f.builders[id].pc))
    case Read(id) =>
      (match ReadCached(f.store, f.builders[id].key)
       case Absent => Move(f, id, Acquiring)
       case Found(context) => Move(f, id, Returned(context))
       case Invalid => Move(f, id, Raised))
    case TryAcquire(id, token, answer, leaseSeconds) =>
      var key := f.builders[id].key;
      var f' := f.(store := Acquire(f.store, key, token, leaseSeconds), issued := f.issued[token := id]);
      if answer.Lost? then Move(f', id, Raised)
      else if Locked(f.store, key) then Move(f', id, Waiting)
      else Move(f', id, Checking(token))
    case Recheck(id) =>
      var token := f.builders[id].pc.token;
      (match ReadCached(f.store, f.builders[id].key)
       case Absent => Move(f, id, Building(token))
       case Found(context) => Move(f, id, Releasing(token, Some(context)))
       case Invalid => Move(f, id, Releasing(token, None)))
    case Build(id, content) =>
      Move(f, id, Publishing(f.builders[id].pc.token, Context(f.builders[id].key.generation, content)))
    case Put(id, answer) =>
      var key, token, built := f.builders[id].key, f.builders[id].pc.token, f.builders[id].pc.built;
      if Holds(f.store, key, token) then
        var f' := f.(store := Publish(f.store, key, token, Encoded(built)),
                     published := f.published[key := PublishedFor(f, key) + [built]]);
        Move(f', id, Releasing(token, if answer.Answered? then Some(built) else None))
      else
        Move(f, id, Releasing(token, None))
    case LetGo(id, answer) =>
      var key, token, outcome := f.builders[id].key, f.builders[id].pc.token, f.builders[id].pc.outcome;
      Move(f.(store := Release(f.store, key, token)), id,
           if answer.Answered? && outcome.Some? then Returned(outcome.value) else Raised)
    case Sleep(id) => Move(f, id, Polling)
  }

  // -------------------------------------------------------------- invariant

  /** What a builder holds is its own, and what it is about to publish is still missing while it holds the lock. */
  predicate BuilderOk(f: Fleet, id: BuilderId, b: Builder) {
    match b.pc
    case Checking(token) => token in f.issued && f.issued[token] == id
    case Building(token) =>
      && token in f.issued && f.issued[token] == id
      && (Holds(f.store, b.key, token) ==> PublishedFor(f, b.key) == [])
    case Publishing(token, built) =>
      && token in f.issued && f.issued[token] == id
      && built.generation == b.key.generation
      && (Holds(f.store, b.key, token) ==> PublishedFor(f, b.key) == [])
    case Releasing(token, outcome) =>
      && token in f.issued && f.issued[token] == id
      && (outcome.Some? ==> PublishedFor(f, b.key) == [outcome.value])
    case Returned(context) => PublishedFor(f, b.key) == [context]
    case _ => true
  }

  predicate KeyOk(f: Fleet, key: Key) {
    && |PublishedFor(f, key)| <= 1
    && (key in f.store.contexts <==> PublishedFor(f, key) != [])
    && (PublishedFor(f, key) != [] ==>
          && f.store.contexts[key] == Encoded(PublishedFor(f, key)[0])
          && PublishedFor(f, key)[0].generation == key.generation)
    && (key in f.store.locks ==> f.store.locks[key].token in f.issued)
  }

  ghost predicate FleetOk(f: Fleet) {
    && (forall key: Key :: KeyOk(f, key))
    && (forall id :: id in f.builders ==> BuilderOk(f, id, f.builders[id]))
  }

  lemma KeysStayOk(f: Fleet, a: Action, key: Key)
    requires FleetOk(f) && Enabled(f, a)
    ensures KeyOk(After(f, a), key)
  {
    assert KeyOk(f, key);
    if a.Put? {
      assert BuilderOk(f, a.id, f.builders[a.id]);
    }
  }

  lemma ActorStaysOk(f: Fleet, a: Action, id: BuilderId)
    requires FleetOk(f) && Enabled(f, a) && Actor(a) == Some(id) && !a.Crash?
    ensures id in After(f, a).builders && BuilderOk(After(f, a), id, After(f, a).builders[id])
  {
    if id in f.builders {
      assert BuilderOk(f, id, f.builders[id]);
      assert KeyOk(f, f.builders[id].key);
    }
  }

  lemma OthersStayOk(f: Fleet, a: Action, id: BuilderId)
    requires FleetOk(f) && Enabled(f, a) && id in f.builders
    requires Actor(a) != Some(id)
    ensures BuilderOk(After(f, a), id, f.builders[id])
  {
    var b := f.builders[id];
    assert BuilderOk(f, id, b) && KeyOk(f, b.key);
    if a.Put? {
      assert BuilderOk(f, a.id, f.builders[a.id]);
    }
  }

  lemma StepKeepsFleetOk(f: Fleet, a: Action)
    requires FleetOk(f) && Enabled(f, a)
    ensures FleetOk(After(f, a))
  {
    forall key { KeysStayOk(f, a, key); }
    forall id | id in After(f, a).builders
      ensures BuilderOk(After(f, a), id, After(f, a).builders[id])
    {
      if Actor(a) == Some(id) {
        ActorStaysOk(f, a, id);
      } else {
        OthersStayOk(f, a, id);
      }
    }
  }

  // ------------------------------------------------------------------- runs

  predicate FleetRun(states: seq<Fleet>, actions: seq<Action>) {
    && |states| == |actions| + 1
    && states[0].builders == map[] && states[0].issued == map[] && states[0].published == map[]
    && states[0].store.locks == map[] && states[0].store.contexts == map[]
    && (forall i :: 0 <= i < |actions| ==> FleetStep(states[i], actions[i], states[i + 1]))
  }

  predicate FleetStep(f: Fleet, a: Action, f': Fleet) { Enabled(f, a) && f' == After(f, a) }

  lemma {:induction false} FleetAlwaysOk(states: seq<Fleet>, actions: seq<Action>, i: nat)
    requires FleetRun(states, actions) && i < |states|
    ensures FleetOk(states[i])
  {
    if i > 0 {
      FleetAlwaysOk(states, actions, i - 1);
      assert FleetStep(states[i - 1], actions[i - 1], states[i]);
      StepKeepsFleetOk(states[i - 1], actions[i - 1]);
    }
  }

  // --------------------------------------------------------------- theorems

  /**
    Write-once agreement: under any interleaving of builders, expiries and
    crashes each key is published at most once, and every resolve that returns
    for a key returns that one context, of the key's generation.
  */
  lemma ResolversAgree(states: seq<Fleet>, actions: seq<Action>, i: nat, j: nat, a: BuilderId, b: BuilderId)
    requires FleetRun(states, actions) && i <= j < |states|
    requires a in states[i].builders && b in states[j].builders
    requires states[i].builders[a].key == states[j].builders[b].key
    requires states[i].builders[a].pc.Returned? && states[j].builders[b].pc.Returned?
    ensures states[i].builders[a].pc.context == states[j].builders[b].pc.context
    ensures states[i].builders[a].pc.context.generation == states[i].builders[a].key.generation
    ensures |PublishedFor(states[j], states[j].builders[b].key)| == 1
  {
    var key := states[i].builders[a].key;
    FleetAlwaysOk(states, actions, i);
    FleetAlwaysOk(states, actions, j);
    assert KeyOk(states[i], key);
    PublicationsStay(states, actions, i, j, key);
  }

  lemma {:induction false} PublicationsStay(states: seq<Fleet>, actions: seq<Action>, i: nat, j: nat, key: Key)
    requires FleetRun(states, actions) && i <= j < |states|
    ensures PublishedFor(states[i], key) <= PublishedFor(states[j], key)
    decreases j - i
  {
    if i < j {
      PublicationsStay(states, actions, i, j - 1, key);
      assert FleetStep(states[j - 1], actions[j - 1], states[j]);
    }
  }

  lemma EachKeyPublishedAtMostOnce(states: seq<Fleet>, actions: seq<Action>, i: nat, key: Key)
    requires FleetRun(states, actions) && i < |states|
    ensures |PublishedFor(states[i], key)| <= 1
    ensures ReadCached(states[i].store, key).Found? <==> PublishedFor(states[i], key) != []
    ensures !ReadCached(states[i].store, key).Invalid?
  {
    FleetAlwaysOk(states, actions, i);
    assert KeyOk(states[i], key);
  }

  /** Whoever publishes a context or removes a lock holds, unexpired, a lock it acquired itself. */
  lemma OnlyTheLeaseOwnerActs(states: seq<Fleet>, actions: seq<Action>, i: nat, key: Key)
    requires FleetRun(states, actions) && i < |actions|
    requires PublishedFor(states[i + 1], key) != PublishedFor(states[i], key)
          || (key in states[i].store.locks && key !in states[i + 1].store.locks)
    ensures actions[i].Put? || actions[i].LetGo?
    ensures key in states[i].store.locks && states[i].store.now < states[i].store.locks[key].expiresAt
    ensures var token := states[i].store.locks[key].token;
            token in states[i].issued && Actor(actions[i]) == Some(states[i].issued[token])
  {
    FleetAlwaysOk(states, actions, i);
    assert FleetStep(states[i], actions[i], states[i + 1]);
    if actions[i].Put? || actions[i].LetGo? {
      assert BuilderOk(states[i], actions[i].id, states[i].builders[actions[i].id]);
    }
  }
}
