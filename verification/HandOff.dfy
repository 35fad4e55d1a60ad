/**
 The hand-off of one waiting room between game servers, as a state machine over the keys of Redis, the
 state of every server and the calls in flight.

 Any number of servers and any number of transfers are covered: a transfer that was cancelled may be
 followed by another, and a server that took the room over may later drain and pass it on. Each server runs
 three asynchronous chains that interleave freely: the hand-off loop (`Hand`), the command consumer's
 adoption of a room (`Adopt`) and the registry's publish loop (`Publish`). A chain waits for one call at a
 time; a call that is lost either took effect or never will, which is settled before the chain moves on.
 */
module HandOff {
  import opened Wrappers
  import Redis

  type ServerId = nat
  type TransferId = nat
  type User = nat

  /** The keys the protocol fences: one intent per transfer, the room's directory entry, one claim per user. */
  datatype Key = IntentKey(id: TransferId) | DirectoryKey | ClaimKey(user: User)

  datatype Intent = Pending | Committed | Cancelled

  /**
   A stored value. `Owned` is a directory entry or an assigned claim of this room, naming its server; the
   stamp stands for the rest of the text (updatedAt, requestId, ...), which compare-and-set also compares.
   `Other` is a reservation or a claim for another room.
   */
  datatype Value = State(intent: Intent) | Owned(server: ServerId, stamp: nat) | Other(stamp: nat)

  type Store = map<Key, Value>

  /** The AdoptRoom command: who hands over, to whom, and the exported roster. */
  datatype Transfer = Transfer(source: ServerId, target: ServerId, members: seq<User>)

  /** The room as `RoomManager` holds it; `Missing` covers both never held and swept away. */
  datatype Room = Missing | Held(frozen: bool, roster: seq<User>)

  /** Where `handOffWaitingRooms` stands with this room. */
  datatype Hand =
    | Idle
    | Create(id: TransferId, target: ServerId)               // writing the pending intent
    | Created(id: TransferId, target: ServerId, unique: bool) // its reply is on the way
    | Send(id: TransferId, target: ServerId)                 // in the pending map, sending the command
    | Wait(id: TransferId)                                   // in the pending map, between settle attempts
    | Read(id: TransferId)                                   // cancellation answered, reading the intent
    | Seen(id: TransferId, value: Option<Value>)             // the intent's value is on the way

  /** Where `#adoptRoom` stands. */
  datatype Adopt =
    | Rest
    | Check(id: TransferId)
    | Gather(id: TransferId, seen: seq<Value>)
    | Commit(id: TransferId, seen: seq<Value>)
    | Confirmed(id: TransferId)
    | Recheck(id: TransferId)
    | Rechecked(id: TransferId, committed: bool)

  datatype Purpose = Refresh | Remove

  /** Where the registry's publish loop stands with one key of this room. */
  datatype Publish =
    | Quiet
    | Look(key: Key, purpose: Purpose)
    | Looked(key: Key, purpose: Purpose, value: Option<Value>)
    | Set(key: Key, gone: bool)                       // set-if-absent; gone: the room had left RoomManager
    | Swap(key: Key, expected: Value, update: Value)   // compare-and-set, or compare-and-expire
    | Swapped(key: Key, done: bool)
    | Drop(key: Key, expected: Value)

  datatype Server = Server(
    draining: bool,
    room: Room,
    hand: Hand,
    staged: Option<TransferId>,
    adopt: Adopt,
    projected: bool,        // the publish loop's captured projections contain the room
    publish: Publish
  )

  /**
   `sent` holds the commands that reached a stream, `issued` who drew each transfer id. `owner` and `stray`
   are history: the target of the last commit, and whether a set-if-absent issued for a room that had
   already left RoomManager ever took effect.
   */
  datatype World = World(
    redis: Store,
    servers: seq<Server>,
    sent: map<TransferId, Transfer>,
    issued: map<TransferId, ServerId>,
    owner: ServerId,
    stray: bool
  )

  // ---------------------------------------------------------------------------------------------
  // Reading the state

  predicate IntentIs(redis: Store, t: TransferId, intent: Intent) {
    Redis.Lookup(redis, IntentKey(t)) == Some(State(intent))
  }

  /** `key` names server `s` for this room. */
  predicate Names(redis: Store, key: Key, s: ServerId) {
    key in redis && redis[key].Owned? && redis[key].server == s
  }

  /** The room is live and usable on the server. */
  predicate Serving(v: Server) {
    v.room.Held? && !v.room.frozen
  }

  /** The fenced keys in the order the peer reads them: the directory, then each member's claim. */
  function Keys(members: seq<User>): (keys: seq<Key>)
    ensures |keys| == |members| + 1
    ensures forall i :: 0 <= i < |keys| ==> !keys[i].IntentKey?
  {
    [DirectoryKey] + seq(|members|, i requires 0 <= i < |members| => ClaimKey(members[i]))
  }

  const INTENT_TTL_MS := 86_400_000
  const HEARTBEAT_TTL_MS := 6_000
  const ACTIVE_ROOM_TTL_MS := 30_000

  /** The batch of `claimAdoptedRoom`: commit the intent and move every fenced key from the values read. */
  function Batch(t: TransferId, tr: Transfer, seen: seq<Value>, stamp: nat): seq<Redis.Replacement<Key, Value>>
    requires |seen| == |Keys(tr.members)|
  {
    var keys := Keys(tr.members);
    [Redis.Replacement(IntentKey(t), Some(State(Pending)), State(Committed), INTENT_TTL_MS)]
    + seq(|keys|, i requires 0 <= i < |keys| =>
        Redis.Replacement(keys[i], Some(seen[i]), Owned(tr.target, stamp),
                          if keys[i].DirectoryKey? then HEARTBEAT_TTL_MS else ACTIVE_ROOM_TTL_MS))
  }

  // ---------------------------------------------------------------------------------------------
  // Steps

  datatype Label =
    // environment
    | Drain(s: ServerId)
    | Join(s: ServerId, user: User, stamp: nat)
    | Leave(s: ServerId, user: User)
    | Expire(key: Key)
    | Meddle(user: User, stamp: nat)
    // hand-off loop of the source
    | Freeze(s: ServerId, t: TransferId, target: ServerId)
    | CreateCall(s: ServerId)
    | CreateReply(s: ServerId, lost: bool)
    | SendCall(s: ServerId, delivered: bool)
    | CancelCall(s: ServerId, took: bool, replied: bool)
    | ReadCall(s: ServerId)
    | SettleReply(s: ServerId, lost: bool)
    // command consumer of the peer
    | Deliver(s: ServerId, t: TransferId, refused: bool)
    | CheckCall(s: ServerId)
    | GatherCall(s: ServerId)
    | CommitCall(s: ServerId, stamp: nat)
    | GoLive(s: ServerId)
    | RecheckCall(s: ServerId)
    | Resolve(s: ServerId)
    | AdoptLost(s: ServerId)
    // publish loop of the registry
    | Project(s: ServerId)
    | PublishStart(s: ServerId, key: Key, purpose: Purpose)
    | PublishLook(s: ServerId)
    | PublishReply(s: ServerId, stamp: nat, matches: bool, joined: bool)
    | PublishWrite(s: ServerId, stamp: nat)
    | PublishLost(s: ServerId)

  predicate HasServer(l: Label) {
    !l.Expire? && !l.Meddle?
  }

  /** Which steps the code can take. */
  predicate Enabled(w: World, l: Label) {
    if HasServer(l) then l.s < |w.servers| && EnabledAt(w, w.servers[l.s], l)
    // the intent lives a day and is taken never to expire during a run
    else if l.Expire? then !l.key.IntentKey?
    else true
  }

  predicate EnabledAt(w: World, v: Server, l: Label)
    requires HasServer(l)
  {
    match l
    case Drain(_) => true
    // a member joins after two reads of this server were answered, so no claim call for that user is in flight
    case Join(_, user, _) => Serving(v) && user !in v.room.roster && !About(v.publish, ClaimKey(user))
    case Leave(_, _) => Serving(v)
    case Freeze(s, t, target) =>
      v.draining && v.hand.Idle? && Serving(v) && v.room.roster != []
      && t !in w.issued && target < |w.servers| && target != s
    case CreateCall(_) => v.hand.Create?
    case CreateReply(_, lost) => v.hand.Created? || (v.hand.Create? && lost)
    case SendCall(_, _) => v.hand.Send?
    case CancelCall(_, _, _) => v.hand.Wait?
    case ReadCall(_) => v.hand.Read?
    case SettleReply(_, lost) => v.hand.Seen? || (v.hand.Read? && lost)
    case Deliver(s, t, _) => v.adopt.Rest? && t in w.sent && w.sent[t].target == s
    case CheckCall(_) => v.adopt.Check?
    case GatherCall(_) => v.adopt.Gather? && v.adopt.id in w.sent
    case CommitCall(_, _) =>
      v.adopt.Commit? && v.adopt.id in w.sent && |v.adopt.seen| == |Keys(w.sent[v.adopt.id].members)|
    case GoLive(_) => v.adopt.Confirmed? && v.adopt.id in w.sent
    case RecheckCall(_) => v.adopt.Recheck?
    case Resolve(_) => v.adopt.Rechecked? && v.adopt.id in w.sent
    case AdoptLost(_) => !v.adopt.Rest?
    case Project(_) => v.publish.Quiet?
    case PublishStart(_, key, purpose) => v.publish.Quiet? && MayStart(v, key, purpose)
    case PublishLook(_) => v.publish.Look?
    case PublishReply(_, _, _, _) => v.publish.Looked? || v.publish.Swapped?
    case PublishWrite(_, _) => v.publish.Set? || v.publish.Swap? || v.publish.Drop?
    case PublishLost(_) => true
  }

  predicate About(p: Publish, key: Key) {
    !p.Quiet? && p.key == key
  }

  /** What the publish loop iterates over: projections, tracked seats, rooms no longer projected, releases. */
  predicate MayStart(v: Server, key: Key, purpose: Purpose) {
    match key
    case IntentKey(_) => false
    case DirectoryKey => (purpose == Refresh) == v.projected
    case ClaimKey(user) => (purpose == Refresh) == (v.room.Held? && user in v.room.roster)
  }

  /** The steps that can change what RoomManager holds. */
  predicate MovesRoom(l: Label) {
    || l.Freeze? || l.CreateReply? || l.SettleReply? || l.Join? || l.Leave?
    || l.Deliver? || l.GoLive? || l.Resolve?
  }

  /** The steps of the hand-off loop. */
  predicate HandsOff(l: Label) {
    l.Freeze? || l.CreateCall? || l.CreateReply? || l.SendCall? || l.CancelCall? || l.ReadCall? || l.SettleReply?
  }

  /** The steps of the adoption. */
  predicate Adopts(l: Label) {
    || l.Deliver? || l.CheckCall? || l.GatherCall? || l.CommitCall? || l.GoLive? || l.RecheckCall?
    || l.Resolve? || l.AdoptLost?
  }

  /** The steps of the publish loop. */
  predicate Publishes(l: Label) {
    l.PublishStart? || l.PublishLook? || l.PublishReply? || l.PublishWrite? || l.PublishLost?
  }

  function Apply(w: World, l: Label): (x: World)
    requires Enabled(w, l)
    // a step moves no server but its own
    ensures |x.servers| == |w.servers|
    ensures forall s :: 0 <= s < |w.servers| && (HasServer(l) ==> s != l.s) ==> x.servers[s] == w.servers[s]
    ensures HasServer(l) ==> x.servers[l.s] == NextServer(w, w.servers[l.s], l)
  {
    World(
      if HasServer(l) then NextRedis(w, w.servers[l.s], l)
      else if l.Expire? then w.redis - {l.key}
      else w.redis[ClaimKey(l.user) := Other(l.stamp)],
      if HasServer(l) then w.servers[l.s := NextServer(w, w.servers[l.s], l)] else w.servers,
      if l.SendCall? && l.delivered
      then w.sent[w.servers[l.s].hand.id := Transfer(l.s, w.servers[l.s].hand.target, Roster(w.servers[l.s].room))]
      else w.sent,
      if l.Freeze? then w.issued[l.t := l.s] else w.issued,
      if l.CommitCall? && BatchApplies(w, w.servers[l.s], l) then l.s else w.owner,
      w.stray || StrayWrite(w, l))
  }

  function Roster(room: Room): seq<User> {
    if room.Held? then room.roster else []
  }

  /** The batch of the peer is accepted: no key twice, and nothing changed since it was read. */
  predicate BatchApplies(w: World, v: Server, l: Label)
    requires l.CommitCall? && EnabledAt(w, v, l)
  {
    var batch := Batch(v.adopt.id, w.sent[v.adopt.id], v.adopt.seen, l.stamp);
    Redis.WellFormed(batch) && Redis.Matches(w.redis, batch)
  }

  /** A set-if-absent issued although RoomManager no longer has the room meets an expired directory key. */
  predicate StrayWrite(w: World, l: Label)
    requires Enabled(w, l)
  {
    l.PublishWrite? && w.servers[l.s].publish == Set(DirectoryKey, true) && DirectoryKey !in w.redis
  }

  /** What the call of this step does to Redis. */
  function NextRedis(w: World, v: Server, l: Label): Store
    requires HasServer(l) && EnabledAt(w, v, l)
  {
    if l.Join? then w.redis[ClaimKey(l.user) := Owned(l.s, l.stamp)]
    else if l.CreateCall? then
      if IntentKey(v.hand.id) in w.redis then w.redis else w.redis[IntentKey(v.hand.id) := State(Pending)]
    else if l.CancelCall? then
      if (l.took || l.replied) && IntentIs(w.redis, v.hand.id, Pending)
      then w.redis[IntentKey(v.hand.id) := State(Cancelled)] else w.redis
    else if l.CommitCall? then
      if BatchApplies(w, v, l) then Redis.Written(w.redis, Batch(v.adopt.id, w.sent[v.adopt.id], v.adopt.seen, l.stamp))
      else w.redis
    else if l.PublishWrite? && TakesEffect(w.redis, v.publish) then
      match v.publish
      case Set(key, _) => w.redis[key := Owned(l.s, l.stamp)]
      case Swap(key, _, update) => w.redis[key := update]
      case Drop(key, _) => w.redis - {key}
    else w.redis
  }

  /** The condition under which Redis carries out a write of the publish loop. */
  predicate TakesEffect(redis: Store, p: Publish) {
    match p
    case Set(key, _) => key !in redis
    case Swap(key, expected, _) => Redis.Lookup(redis, key) == Some(expected)
    case Drop(key, expected) => Redis.Lookup(redis, key) == Some(expected)
    case _ => false
  }

  /** What the step does to the memory of the server that takes it. */
  function NextServer(w: World, v: Server, l: Label): (u: Server)
    requires HasServer(l) && EnabledAt(w, v, l)
    ensures !MovesRoom(l) ==> u.room == v.room && u.staged == v.staged
    ensures !HandsOff(l) ==> u.hand == v.hand
    ensures !Adopts(l) ==> u.adopt == v.adopt
    ensures !Publishes(l) ==> u.publish == v.publish
  {
    if l.Drain? then v.(draining := true)
    else if l.Join? then v.(room := v.room.(roster := v.room.roster + [l.user]))
    else if l.Leave? then v.(room := v.room.(roster := Without(v.room.roster, l.user)))
    else if l.Project? then v.(projected := v.room.Held?)
    else if HandsOff(l) then HandNext(w, v, l)
    else if Adopts(l) then AdoptNext(w, v, l)
    else v.(publish := PublishNext(w, v, l))
  }

  function HandNext(w: World, v: Server, l: Label): Server
    requires HandsOff(l) && EnabledAt(w, v, l)
  {
    match l
    case Freeze(_, t, target) => v.(room := v.room.(frozen := true), hand := Create(t, target))
    case CreateCall(_) => v.(hand := Created(v.hand.id, v.hand.target, IntentKey(v.hand.id) !in w.redis))
    // a lost or negative answer thaws the room: no command has been sent yet
    case CreateReply(_, lost) =>
      if !lost && v.hand.unique then v.(hand := Send(v.hand.id, v.hand.target)) else Thawed(v)
    case SendCall(_, _) => v.(hand := Wait(v.hand.id))
    case CancelCall(_, _, replied) => v.(hand := if replied then Read(v.hand.id) else v.hand)
    case ReadCall(_) => v.(hand := Seen(v.hand.id, Redis.Lookup(w.redis, IntentKey(v.hand.id))))
    case SettleReply(_, lost) =>
      if lost then v.(hand := Wait(v.hand.id))
      else if v.hand.value == Some(State(Committed)) then v.(room := Missing, hand := Idle)
      else if v.hand.value == Some(State(Cancelled)) then Thawed(v)
      else v.(hand := Wait(v.hand.id))
  }

  function AdoptNext(w: World, v: Server, l: Label): Server
    requires Adopts(l) && EnabledAt(w, v, l)
  {
    match l
    case Deliver(_, t, refused) =>
      if v.draining && v.staged != Some(t) then v
      else if v.staged == Some(t) then v.(adopt := Check(t))
      else if refused || v.room.Held? || v.staged.Some? then v
      else v.(staged := Some(t), adopt := Check(t))
    case CheckCall(_) =>
      if IntentIs(w.redis, v.adopt.id, Committed) then v.(adopt := Confirmed(v.adopt.id))
      else v.(adopt := Gather(v.adopt.id, []))
    case GatherCall(_) => v.(adopt := Gathered(w, v))
    case CommitCall(_, _) =>
      v.(adopt := if BatchApplies(w, v, l) then Confirmed(v.adopt.id) else Recheck(v.adopt.id))
    case GoLive(_) => Live(w, v)
    case RecheckCall(_) => v.(adopt := Rechecked(v.adopt.id, IntentIs(w.redis, v.adopt.id, Committed)))
    case Resolve(_) => if v.adopt.committed then Live(w, v) else v.(staged := None, adopt := Rest)
    // inside the try block an error leads to a second look at the intent; there it escapes and the room stays staged
    case AdoptLost(_) =>
      v.(adopt := if v.adopt.Recheck? || v.adopt.Rechecked? then Rest else Recheck(v.adopt.id))
  }

  function PublishNext(w: World, v: Server, l: Label): Publish
    requires Publishes(l) && EnabledAt(w, v, l)
  {
    match l
    case PublishStart(_, key, purpose) => Look(key, purpose)
    case PublishLook(_) => Looked(v.publish.key, v.publish.purpose, Redis.Lookup(w.redis, v.publish.key))
    case PublishReply(s, stamp, matches, joined) => Replied(v, s, stamp, matches, joined)
    case PublishWrite(_, _) =>
      if v.publish.Swap? then Swapped(v.publish.key, TakesEffect(w.redis, v.publish)) else Quiet
    case PublishLost(_) => Quiet
  }

  function Without(roster: seq<User>, user: User): seq<User> {
    if roster == [] then []
    else (if roster[0] == user then [] else [roster[0]]) + Without(roster[1..], user)
  }

  function Thawed(v: Server): Server {
    v.(room := if v.room.Held? then v.room.(frozen := false) else v.room, hand := Idle)
  }

  /** `commitAdoptedRoom`: the staged room becomes an ordinary one with the exported roster. */
  function Live(w: World, v: Server): Server
    requires !v.adopt.Rest? && v.adopt.id in w.sent
  {
    v.(room := Held(false, w.sent[v.adopt.id].members), staged := None, adopt := Rest)
  }

  /** One read of `claimAdoptedRoom`: a fenced key that does not name the source ends the attempt. */
  function Gathered(w: World, v: Server): Adopt
    requires v.adopt.Gather? && v.adopt.id in w.sent
  {
    var tr := w.sent[v.adopt.id];
    var keys := Keys(tr.members);
    if |v.adopt.seen| >= |keys| then Commit(v.adopt.id, v.adopt.seen)
    else
      var key := keys[|v.adopt.seen|];
      if Names(w.redis, key, tr.source) then Gather(v.adopt.id, v.adopt.seen + [w.redis[key]])
      else Recheck(v.adopt.id)
  }

  /** What the publish loop does once a value it asked for has arrived. */
  function Replied(v: Server, s: ServerId, stamp: nat, matches: bool, joined: bool): Publish
    requires v.publish.Looked? || v.publish.Swapped?
  {
    var key := v.publish.key;
    // the Room object the loop holds stays frozen after the room has been handed over
    var recreate := if joined && Serving(v) then Set(key, false) else Quiet;
    if v.publish.Swapped? then
      if v.publish.done || key.DirectoryKey? then Quiet else recreate
    else
      var value := v.publish.value;
      var mine := value.Some? && value.value.Owned? && value.value.server == s;
      if v.publish.purpose == Remove then
        if mine then Drop(key, value.value) else Quiet
      else if key.DirectoryKey? then
        if value.None? then
          // `rooms.get(roomId)?.handingOff` is also false when the room is no longer there
          if v.room.Held? && v.room.frozen then Quiet else Set(key, v.room.Missing?)
        else if mine then Swap(key, value.value, Owned(s, stamp))
        else Quiet
      else
        // a reservation is refreshed when its requestId is the one that took the seat
        if mine || (value.Some? && value.value.Other? && matches) then Swap(key, value.value, value.value)
        else recreate
  }

  // ---------------------------------------------------------------------------------------------
  // Runs

  /** One server holds the room, no transfer has ever been issued, no call is in flight. */
  ghost predicate Init(w: World) {
    && w.owner < |w.servers|
    && (forall s :: 0 <= s < |w.servers| ==>
          var v := w.servers[s];
          && v.hand.Idle? && v.staged.None? && v.adopt.Rest? && v.publish.Quiet? && !v.projected
          && (if s == w.owner then Serving(v) else v.room.Missing?))
    && w.sent == map[] && w.issued == map[]
    && (forall t :: IntentKey(t) !in w.redis)
    && (forall k, s :: Names(w.redis, k, s) ==> s == w.owner)
    && !w.stray
  }

  /** The labels can be taken one after the other from `w`. */
  ghost predicate Takes(w: World, run: seq<Label>)
    decreases |run|
  {
    run != [] ==> Enabled(w, run[0]) && Takes(Apply(w, run[0]), run[1..])
  }

  /** The world after taking them. */
  ghost function After(w: World, run: seq<Label>): World
    requires Takes(w, run)
    decreases |run|
  {
    if run == [] then w else After(Apply(w, run[0]), run[1..])
  }
}
