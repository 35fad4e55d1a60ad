/**
 Connections, tickets and their meeting point: server-game/src/gateway/connection-manager.ts,
 server-game/src/gateway/ticket-store.ts and server-game/src/gateway/ticket-auth.ts.
 */
module Connections {
  import opened Wrappers

  type Ip = nat
  type UserId = nat

  datatype Record = Record(ip: Ip, user: Option<UserId>)

  datatype Limits = Limits(maxConnections: nat, maxUnauthenticatedPerIp: nat, maxAuthenticatedPerIp: nat)

  /** The live connections from an address that are, or are not, authenticated. */
  function From(connections: map<nat, Record>, ip: Ip, authenticated: bool): set<nat> {
    set id | id in connections && connections[id].ip == ip && connections[id].user.Some? == authenticated
  }

  function CountOf(counts: map<Ip, nat>, ip: Ip): nat {
    if ip in counts then counts[ip] else 0
  }

  /** A counter per address is the number of matching connections, and is only there when that is not zero. */
  ghost predicate Counts(counts: map<Ip, nat>, connections: map<nat, Record>, authenticated: bool) {
    && (forall ip :: CountOf(counts, ip) == |From(connections, ip, authenticated)|)
    && (forall ip :: ip in counts ==> counts[ip] > 0)
  }

  /** Users and their authenticated connections correspond one to one. */
  ghost predicate OnePerUser(users: map<UserId, nat>, connections: map<nat, Record>) {
    && (forall u :: u in users ==> users[u] in connections && connections[users[u]].user == Some(u))
    && (forall id :: id in connections && connections[id].user.Some? ==>
          connections[id].user.value in users && users[connections[id].user.value] == id)
  }

  lemma FromSet(connections: map<nat, Record>, id: nat, r: Record, ip: Ip, authenticated: bool)
    ensures From(connections[id := r], ip, authenticated)
         == if r.ip == ip && r.user.Some? == authenticated then From(connections, ip, authenticated) + {id}
            else From(connections, ip, authenticated) - {id}
    ensures From(connections - {id}, ip, authenticated) == From(connections, ip, authenticated) - {id}
  {
  }

  function Raised(counts: map<Ip, nat>, ip: Ip): map<Ip, nat> {
    counts[ip := CountOf(counts, ip) + 1]
  }

  /** A missing counter counts as one here, so that it never goes below zero. */
  function Lowered(counts: map<Ip, nat>, ip: Ip): map<Ip, nat> {
    var next := (if ip in counts then counts[ip] as int else 1) - 1;
    if next <= 0 then counts - {ip} else counts[ip := next]
  }

  /** A connection joins a group: its address goes up by one. */
  lemma JoinCounts(counts: map<Ip, nat>, connections: map<nat, Record>, id: nat, r: Record, authenticated: bool)
    requires Counts(counts, connections, authenticated) && r.user.Some? == authenticated
    requires id !in From(connections, r.ip, authenticated) && (id in connections ==> connections[id].ip == r.ip)
    ensures Counts(Raised(counts, r.ip), connections[id := r], authenticated)
  {
    forall ip ensures CountOf(Raised(counts, r.ip), ip) == |From(connections[id := r], ip, authenticated)| {
      FromSet(connections, id, r, ip, authenticated);
      var before := From(connections, ip, authenticated);
      if ip != r.ip {
        assert before - {id} == before;
      } else {
        assert |before + {id}| == |before| + 1;
      }
    }
  }

  /** A connection leaves a group by changing over: its address goes down by one. */
  lemma LeaveCounts(counts: map<Ip, nat>, connections: map<nat, Record>, id: nat, r: Record, authenticated: bool)
    requires Counts(counts, connections, authenticated) && id in connections
        && connections[id].user.Some? == authenticated
    requires r.ip == connections[id].ip && r.user.Some? != authenticated
    ensures Counts(Lowered(counts, r.ip), connections[id := r], authenticated)
    ensures Counts(Lowered(counts, r.ip), connections - {id}, authenticated)
  {
    assert id in From(connections, r.ip, authenticated);
    forall ip
      ensures CountOf(Lowered(counts, r.ip), ip) == |From(connections[id := r], ip, authenticated)|
      ensures CountOf(Lowered(counts, r.ip), ip) == |From(connections - {id}, ip, authenticated)|
    {
      FromSet(connections, id, r, ip, authenticated);
      if ip != r.ip {
        assert From(connections, ip, authenticated) - {id} == From(connections, ip, authenticated);
      }
    }
  }

  /** A change on the other side of a group leaves its counters right. */
  lemma OtherCounts(counts: map<Ip, nat>, connections: map<nat, Record>, id: nat, r: Record, authenticated: bool)
    requires Counts(counts, connections, authenticated)
        && (id in connections ==> connections[id].user.Some? != authenticated)
    ensures r.user.Some? != authenticated ==> Counts(counts, connections[id := r], authenticated)
    ensures Counts(counts, connections - {id}, authenticated)
  {
    forall ip
      ensures r.user.Some? != authenticated
          ==> From(connections[id := r], ip, authenticated) == From(connections, ip, authenticated)
      ensures From(connections - {id}, ip, authenticated) == From(connections, ip, authenticated)
    {
      FromSet(connections, id, r, ip, authenticated);
    }
  }

  datatype Book = Book(
    connections: map<nat, Record>,
    unauthenticatedByIp: map<Ip, nat>,
    authenticatedByIp: map<Ip, nat>,
    activeUsers: map<UserId, nat>,
    nextId: nat)

  const NO_ONE := Book(map[], map[], map[], map[], 1)

  ghost predicate WithinLimits(b: Book, limits: Limits) {
    && |b.connections.Keys| <= limits.maxConnections
    && (forall ip :: CountOf(b.unauthenticatedByIp, ip) <= limits.maxUnauthenticatedPerIp)
    && (forall ip :: CountOf(b.authenticatedByIp, ip) <= limits.maxAuthenticatedPerIp)
  }

  /** The counters are exact, users and connections match one to one, and no limit is passed. */
  ghost predicate Kept(b: Book, limits: Limits) {
    && Counts(b.unauthenticatedByIp, b.connections, false)
    && Counts(b.authenticatedByIp, b.connections, true)
    && OnePerUser(b.activeUsers, b.connections)
    && (forall id :: id in b.connections ==> id < b.nextId)
    && WithinLimits(b, limits)
  }

  predicate CanOpen(b: Book, limits: Limits, ip: Ip) {
    |b.connections.Keys| < limits.maxConnections && CountOf(b.unauthenticatedByIp, ip) < limits.maxUnauthenticatedPerIp
  }

  predicate CanAuthenticate(b: Book, limits: Limits, id: nat, user: UserId) {
    && id in b.connections && b.connections[id].user.None? && user !in b.activeUsers
    && CountOf(b.authenticatedByIp, b.connections[id].ip) < limits.maxAuthenticatedPerIp
  }

  function Opened(b: Book, ip: Ip): Book {
    b.(connections := b.connections[b.nextId := Record(ip, None)],
       unauthenticatedByIp := Raised(b.unauthenticatedByIp, ip), nextId := b.nextId + 1)
  }

  function Authenticated(b: Book, id: nat, user: UserId): Book
    requires id in b.connections
  {
    var known := b.connections[id].(user := Some(user));
    b.(connections := b.connections[id := known],
       unauthenticatedByIp := Lowered(b.unauthenticatedByIp, known.ip),
       authenticatedByIp := Raised(b.authenticatedByIp, known.ip),
       activeUsers := b.activeUsers[user := id])
  }

  function Closed(b: Book, id: nat): Book
    requires id in b.connections
  {
    var gone := b.connections[id];
    var rest := b.(connections := b.connections - {id});
    if gone.user.None? then rest.(unauthenticatedByIp := Lowered(b.unauthenticatedByIp, gone.ip))
    else
      var user := gone.user.value;
      rest.(authenticatedByIp := Lowered(b.authenticatedByIp, gone.ip),
            activeUsers :=
              if user in b.activeUsers && b.activeUsers[user] == id then b.activeUsers - {user} else b.activeUsers)
  }

  lemma NobodyKept(limits: Limits)
    ensures Kept(NO_ONE, limits)
  {
    forall ip, authenticated ensures From(map[], ip, authenticated) == {} {
    }
    assert NO_ONE.connections.Keys == {};
  }

  lemma RaisedIs(counts: map<Ip, nat>, ip: Ip, other: Ip)
    ensures CountOf(Raised(counts, ip), other) == CountOf(counts, other) + if other == ip then 1 else 0
    ensures CountOf(Lowered(counts, ip), other) <= CountOf(counts, other)
  {
  }

  lemma OpenLimits(b: Book, limits: Limits, ip: Ip)
    requires WithinLimits(b, limits) && CanOpen(b, limits, ip) && b.nextId !in b.connections
    ensures WithinLimits(Opened(b, ip), limits)
  {
    assert Opened(b, ip).connections.Keys == b.connections.Keys + {b.nextId};
    forall other ensures CountOf(Opened(b, ip).unauthenticatedByIp, other) <= limits.maxUnauthenticatedPerIp {
      RaisedIs(b.unauthenticatedByIp, ip, other);
    }
  }

  lemma OpenKeeps(b: Book, limits: Limits, ip: Ip)
    requires Kept(b, limits) && CanOpen(b, limits, ip)
    ensures b.nextId !in b.connections && Kept(Opened(b, ip), limits)
  {
    var blank := Record(ip, None);
    JoinCounts(b.unauthenticatedByIp, b.connections, b.nextId, blank, false);
    OtherCounts(b.authenticatedByIp, b.connections, b.nextId, blank, true);
    OpenLimits(b, limits, ip);
    BlankJoins(b.activeUsers, b.connections, b.nextId, blank);
  }

  lemma BlankJoins(users: map<UserId, nat>, connections: map<nat, Record>, id: nat, blank: Record)
    requires OnePerUser(users, connections) && id !in connections && blank.user.None?
    ensures OnePerUser(users, connections[id := blank])
  {
  }

  lemma UserJoins(b: Book, id: nat, user: UserId)
    requires OnePerUser(b.activeUsers, b.connections) && id in b.connections && b.connections[id].user.None?
    requires user !in b.activeUsers
    ensures OnePerUser(Authenticated(b, id, user).activeUsers, Authenticated(b, id, user).connections)
  {
  }

  lemma AuthenticateLimits(b: Book, limits: Limits, id: nat, user: UserId)
    requires WithinLimits(b, limits) && CanAuthenticate(b, limits, id, user)
    ensures WithinLimits(Authenticated(b, id, user), limits)
  {
    var ip := b.connections[id].ip;
    var x := Authenticated(b, id, user);
    assert x.connections.Keys == b.connections.Keys;
    forall other
      ensures CountOf(x.unauthenticatedByIp, other) <= limits.maxUnauthenticatedPerIp
      ensures CountOf(x.authenticatedByIp, other) <= limits.maxAuthenticatedPerIp
    {
      RaisedIs(b.unauthenticatedByIp, ip, other);
      RaisedIs(b.authenticatedByIp, ip, other);
    }
  }

  lemma AuthenticateKeeps(b: Book, limits: Limits, id: nat, user: UserId)
    requires Kept(b, limits) && CanAuthenticate(b, limits, id, user)
    ensures Kept(Authenticated(b, id, user), limits)
  {
    var known := b.connections[id].(user := Some(user));
    LeaveCounts(b.unauthenticatedByIp, b.connections, id, known, false);
    JoinCounts(b.authenticatedByIp, b.connections, id, known, true);
    UserJoins(b, id, user);
    AuthenticateLimits(b, limits, id, user);
  }

  lemma CloseLimits(b: Book, limits: Limits, id: nat)
    requires WithinLimits(b, limits) && id in b.connections
    ensures WithinLimits(Closed(b, id), limits)
  {
    var x := Closed(b, id);
    assert x.connections.Keys == b.connections.Keys - {id};
    forall other
      ensures CountOf(x.unauthenticatedByIp, other) <= CountOf(b.unauthenticatedByIp, other)
      ensures CountOf(x.authenticatedByIp, other) <= CountOf(b.authenticatedByIp, other)
    {
      RaisedIs(b.unauthenticatedByIp, b.connections[id].ip, other);
      RaisedIs(b.authenticatedByIp, b.connections[id].ip, other);
    }
  }

  lemma CloseKeeps(b: Book, limits: Limits, id: nat)
    requires Kept(b, limits) && id in b.connections
    ensures Kept(Closed(b, id), limits)
  {
    var gone := b.connections[id];
    CloseLimits(b, limits, id);
    if gone.user.None? {
      LeaveCounts(b.unauthenticatedByIp, b.connections, id, gone.(user := Some(0)), false);
      OtherCounts(b.authenticatedByIp, b.connections, id, gone, true);
    } else {
      LeaveCounts(b.authenticatedByIp, b.connections, id, gone.(user := None), true);
      OtherCounts(b.unauthenticatedByIp, b.connections, id, gone, false);
    }
  }

  class ConnectionManager {
    const limits: Limits
    var connections: map<nat, Record>
    var unauthenticatedByIp: map<Ip, nat>
    var authenticatedByIp: map<Ip, nat>
    var activeUsers: map<UserId, nat>
    var nextId: nat

    constructor (limits: Limits)
      ensures this.limits == limits && Model() == NO_ONE && Valid()
    {
      this.limits := limits;
      connections, unauthenticatedByIp, authenticatedByIp, activeUsers, nextId := map[], map[], map[], map[], 1;
      NobodyKept(limits);
    }

    function Model(): Book
      reads this
    {
      Book(connections, unauthenticatedByIp, authenticatedByIp, activeUsers, nextId)
    }

    ghost predicate Valid()
      reads this
    {
      Kept(Model(), limits)
    }

    method Open(ip: Ip) returns (id: Option<nat>)
      requires Valid()
      modifies this
      ensures Valid()
      ensures id.Some? <==> CanOpen(old(Model()), limits, ip)
      ensures id.Some? ==> id.value == old(nextId) && Model() == Opened(old(Model()), ip)
      ensures id.None? ==> Model() == old(Model())
    {
      if !CanOpen(Model(), limits, ip) {
        return None;
      }
      OpenKeeps(Model(), limits, ip);
      id := Some(nextId);
      connections := connections[nextId := Record(ip, None)];
      nextId := nextId + 1;
      unauthenticatedByIp := unauthenticatedByIp[ip := CountOf(unauthenticatedByIp, ip) + 1];
    }

    method Authenticate(id: nat, user: UserId) returns (ok: bool)
      requires Valid()
      modifies this
      ensures Valid()
      ensures ok <==> CanAuthenticate(old(Model()), limits, id, user)
      ensures ok ==> Model() == Authenticated(old(Model()), id, user)
      ensures !ok ==> Model() == old(Model())
    {
      if id !in connections || !CanAuthenticate(Model(), limits, id, user) {
        return false;
      }
      AuthenticateKeeps(Model(), limits, id, user);
      var ip := connections[id].ip;
      connections := connections[id := connections[id].(user := Some(user))];
      unauthenticatedByIp := Lowered(unauthenticatedByIp, ip);
      authenticatedByIp := authenticatedByIp[ip := CountOf(authenticatedByIp, ip) + 1];
      activeUsers := activeUsers[user := id];
      ok := true;
    }

    method Close(id: nat) returns (closed: Option<Record>)
      requires Valid()
      modifies this
      ensures Valid()
      ensures closed == if id in old(connections) then Some(old(connections)[id]) else None
      ensures Model() == if id in old(connections) then Closed(old(Model()), id) else old(Model())
    {
      if id !in connections {
        return None;
      }
      CloseKeeps(Model(), limits, id);
      closed := Some(connections[id]);
      Forget(id);
    }

    method Forget(id: nat)
      requires id in connections
      modifies this
      ensures Model() == Closed(old(Model()), id)
    {
      var gone := connections[id];
      connections := connections - {id};
      if gone.user.None? {
        unauthenticatedByIp := Lowered(unauthenticatedByIp, gone.ip);
      } else {
        authenticatedByIp := Lowered(authenticatedByIp, gone.ip);
        if gone.user.value in activeUsers && activeUsers[gone.user.value] == id {
          activeUsers := activeUsers - {gone.user.value};
        }
      }
    }
  }

  /**
   The counter of an address with a matching connection is there and positive, so lowering it never hits the
   floor.
   */
  lemma FloorNeverHit(counts: map<Ip, nat>, connections: map<nat, Record>, id: nat, authenticated: bool)
    requires Counts(counts, connections, authenticated) && id in connections
        && connections[id].user.Some? == authenticated
    ensures connections[id].ip in counts && counts[connections[id].ip] > 0
  {
    assert id in From(connections, connections[id].ip, authenticated);
  }

  // ---------------------------------------------------------------------------------------------
  // Tickets

  /** `serial` tells issues apart; the store does not look at it. */
  datatype Reservation = Reservation(serial: nat, user: UserId, here: bool, issuedAt: int, expiresAt: int)

  type Digest = nat

  const SWEEP_INTERVAL_MS := 10_000
  const SEAT_RESERVATION_TTL_MS := 15_000

  function Live(reservations: map<Digest, Reservation>, now: int): map<Digest, Reservation> {
    map d | d in reservations && reservations[d].expiresAt > now :: reservations[d]
  }

  /** The reservations after the sweep before an issue or a lookup. */
  function Swept(reservations: map<Digest, Reservation>, nextSweepAt: int, now: int): map<Digest, Reservation> {
    if now < nextSweepAt then reservations else Live(reservations, now)
  }

  class TicketStore {
    var reservations: map<Digest, Reservation>
    var nextSweepAt: int
    // history: the next issue's number
    var issued: nat

    constructor ()
      ensures reservations == map[] && issued == 0
    {
      reservations, nextSweepAt, issued := map[], 0, 0;
    }

    /** Every stored reservation is of an issue of its own. */
    ghost predicate Valid()
      reads this
    {
      SerialsDistinct(reservations, issued)
    }

    method SweepExpired(now: int)
      requires Valid()
      modifies this
      ensures Valid() && issued == old(issued)
      ensures reservations == Swept(old(reservations), old(nextSweepAt), now)
    {
      if now < nextSweepAt {
        return;
      }
      nextSweepAt := now + SWEEP_INTERVAL_MS;
      var _ := DeleteExpired(now);
    }

    method DeleteExpired(now: int) returns (deleted: nat)
      requires Valid()
      modifies this`reservations
      ensures Valid() && reservations == Live(old(reservations), now)
      ensures forall d :: d in reservations <==> d in old(reservations) && old(reservations)[d].expiresAt > now
      ensures deleted == |old(reservations).Keys - reservations.Keys|
    {
      ghost var before := reservations;
      deleted := DropExpired(now);
      assert forall d :: d in reservations ==> d in before && reservations[d] == before[d];
    }

    method DropExpired(now: int) returns (deleted: nat)
      modifies this`reservations
      ensures reservations == Live(old(reservations), now)
      ensures deleted == |old(reservations).Keys - Live(old(reservations), now).Keys|
    {
      deleted := 0;
      var todo := reservations.Keys;
      ghost var before := reservations;
      ghost var gone: set<Digest> := {};
      while todo != {}
        invariant todo <= before.Keys && gone <= before.Keys && gone !! todo && deleted == |gone|
        invariant reservations == before - gone
        invariant forall d :: d in gone ==> before[d].expiresAt <= now
        invariant forall d :: d in before && d !in todo && d !in gone ==> before[d].expiresAt > now
        decreases todo
      {
        var d :| d in todo;
        todo := todo - {d};
        if reservations[d].expiresAt <= now {
          reservations := reservations - {d};
          gone := gone + {d};
          deleted := deleted + 1;
        }
      }
      assert reservations == Live(before, now);
      assert gone == before.Keys - Live(before, now).Keys;
    }

    /** `digest` is the hash of the random ticket the loop of the source ends with: one that is not in use. */
    method Issue(user: UserId, here: bool, issuedAt: int, expiresAt: int, now: int, later: int, digest: Digest)
        returns (ok: bool)
      requires Valid() && digest !in reservations
      modifies this
      ensures Valid()
      ensures ok <==> issuedAt < expiresAt && later < expiresAt && expiresAt - issuedAt <= SEAT_RESERVATION_TTL_MS
      ensures issued == if ok then old(issued) + 1 else old(issued)
      ensures ok ==>
          digest in reservations && reservations[digest] == Reservation(old(issued), user, here, issuedAt, expiresAt)
      ensures forall d ::
          d in reservations && d != digest ==> d in old(reservations) && reservations[d] == old(reservations)[d]
    {
      SweepExpired(now);
      if expiresAt <= issuedAt || expiresAt <= later || expiresAt - issuedAt > SEAT_RESERVATION_TTL_MS {
        return false;
      }
      reservations := reservations[digest := Reservation(issued, user, here, issuedAt, expiresAt)];
      issued := issued + 1;
      ok := true;
    }
  }

  // ---------------------------------------------------------------------------------------------
  // Authentication

  datatype Principal = Principal(user: UserId, serial: nat, connection: nat)

  /** One principal per issue, and none for a ticket that can still be used. */
  ghost predicate OncePerIssue(principals: seq<Principal>, reservations: map<Digest, Reservation>, issued: nat) {
    && (forall i :: 0 <= i < |principals| ==> principals[i].serial < issued)
    && (forall i, j :: 0 <= i < j < |principals| ==> principals[i].serial != principals[j].serial)
    && (forall i, d {:trigger principals[i].serial, reservations[d].serial} ::
          0 <= i < |principals| && d in reservations ==> principals[i].serial != reservations[d].serial)
  }

  ghost predicate SerialsDistinct(reservations: map<Digest, Reservation>, issued: nat) {
    && (forall d :: d in reservations ==> reservations[d].serial < issued)
    && (forall d, e {:trigger reservations[d].serial, reservations[e].serial} ::
          d in reservations && e in reservations && d != e ==> reservations[d].serial != reservations[e].serial)
  }

  /** Dropping reservations keeps what is said of the rest. */
  lemma FewerOnce(principals: seq<Principal>, reservations: map<Digest, Reservation>, fewer: map<Digest, Reservation>,
      issued: nat)
    requires OncePerIssue(principals, reservations, issued) && SerialsDistinct(reservations, issued)
    requires forall d :: d in fewer ==> d in reservations && fewer[d] == reservations[d]
    ensures OncePerIssue(principals, fewer, issued) && SerialsDistinct(fewer, issued)
  {
  }

  /** Consuming a reservation as its principal is given out. */
  lemma ConsumedOnce(principals: seq<Principal>, reservations: map<Digest, Reservation>, issued: nat, digest: Digest,
      seat: Principal)
    requires OncePerIssue(principals, reservations, issued) && SerialsDistinct(reservations, issued)
    requires digest in reservations && seat.serial == reservations[digest].serial
    ensures OncePerIssue(principals + [seat], reservations - {digest}, issued)
        && SerialsDistinct(reservations - {digest}, issued)
  {
  }

  class TicketAuthenticator {
    const store: TicketStore
    const connections: ConnectionManager
    // history: every principal given out, and every seat the rooms admitted
    var principals: seq<Principal>
    var seats: seq<Principal>

    constructor (store: TicketStore, connections: ConnectionManager)
      ensures this.store == store && this.connections == connections && principals == [] && seats == []
    {
      this.store, this.connections := store, connections;
      principals, seats := [], [];
    }

    ghost predicate Valid()
      reads this, store, connections
    {
      store.Valid() && connections.Valid() && principals == seats
          && OncePerIssue(principals, store.reservations, store.issued)
    }

    /** The admission: asked only for a live reservation of this server and a connection that may take the user. */
    method Admit(connection: nat, reservation: Reservation, judged: int, admits: bool)
        returns (principal: Option<Principal>)
      requires connections.Valid()
      modifies this`seats, connections
      ensures connections.Valid()
      ensures principal.Some? <==>
        (reservation.expiresAt > judged && reservation.here && admits
         && CanAuthenticate(old(connections.Model()), connections.limits, connection, reservation.user))
      ensures principal.Some? ==>
        && principal.value == Principal(reservation.user, reservation.serial, connection)
        && connections.Model() == Authenticated(old(connections.Model()), connection, reservation.user)
      ensures principal.None? ==> connections.Model() == old(connections.Model())
      ensures seats == if principal.Some? then old(seats) + [principal.value] else old(seats)
    {
      if reservation.expiresAt <= judged || !reservation.here
        || !CanAuthenticate(connections.Model(), connections.limits, connection, reservation.user) {
        return None;
      }
      if !admits {
        return None;
      }
      var seat := Principal(reservation.user, reservation.serial, connection);
      seats := seats + [seat];
      var ok := connections.Authenticate(connection, reservation.user);
      if !ok {
        return None;
      }
      principal := Some(seat);
    }

    /**
     One attempt after the yield: the lookup, the admission and the consumption with nothing in between. The clock
     is read once for each argument; `admits` is what the rooms answer when they are asked.
     */
    method Authenticate(connection: nat, wellFormed: bool, digest: Digest, swept: int, looked: int, judged: int,
        admits: bool)
      returns (principal: Option<Principal>)
      requires Valid()
      modifies this, store, connections
      ensures Valid()
      ensures principal.Some? <==>
        && wellFormed && digest in Swept(old(store.reservations), old(store.nextSweepAt), swept)
        && var reservation := old(store.reservations)[digest];
           && reservation.expiresAt > looked && reservation.expiresAt > judged && reservation.here && admits
           && CanAuthenticate(old(connections.Model()), connections.limits, connection, reservation.user)
      ensures principal.Some? ==>
        && principal.value == Principal(old(store.reservations)[digest].user, old(store.reservations)[digest].serial,
            connection)
        && connections.Model() == Authenticated(old(connections.Model()), connection, principal.value.user)
      ensures principal.None? ==> connections.Model() == old(connections.Model())
      ensures store.reservations ==
        if !wellFormed then old(store.reservations)
        else
          var left := Swept(old(store.reservations), old(store.nextSweepAt), swept);
          if digest in left && (principal.Some? || left[digest].expiresAt <= looked) then left - {digest} else left
      ensures principals == if principal.Some? then old(principals) + [principal.value] else old(principals)
      ensures seats == if principal.Some? then old(seats) + [principal.value] else old(seats)
    {
      if !wellFormed {
        return None;
      }
      ghost var before := store.reservations;
      store.SweepExpired(swept);
      FewerOnce(principals, before, store.reservations, store.issued);
      if digest !in store.reservations {
        return None;
      }
      var reservation := store.reservations[digest];
      if reservation.expiresAt <= looked {
        FewerOnce(principals, store.reservations, store.reservations - {digest}, store.issued);
        store.reservations := store.reservations - {digest};
        return None;
      }
      principal := Admit(connection, reservation, judged, admits);
      if principal.Some? {
        ConsumedOnce(principals, store.reservations, store.issued, digest, principal.value);
        store.reservations := store.reservations - {digest};
        principals := principals + [principal.value];
      }
    }
  }

  // ---------------------------------------------------------------------------------------------
  // Nobody is turned away without need

  /** A connection may open exactly when the live records leave room for it. */
  lemma OpensWhenThereIsRoom(b: Book, limits: Limits, ip: Ip)
    requires Kept(b, limits)
    ensures CanOpen(b, limits, ip)
       <==> |b.connections| < limits.maxConnections && |From(b.connections, ip, false)| < limits.maxUnauthenticatedPerIp
  {
    KeysCount(b.connections);
  }

  /** It may authenticate exactly when it is a blank one, nobody is connected as the user, and there is room. */
  lemma AuthenticatesWhenThereIsRoom(b: Book, limits: Limits, id: nat, user: UserId)
    requires Kept(b, limits)
    ensures CanAuthenticate(b, limits, id, user)
       <==> && id in b.connections && b.connections[id].user.None?
            && (forall other :: other in b.connections ==> b.connections[other].user != Some(user))
            && |From(b.connections, b.connections[id].ip, true)| < limits.maxAuthenticatedPerIp
  {
    assert user in b.activeUsers ==> b.connections[b.activeUsers[user]].user == Some(user);
  }

  lemma {:induction false} KeysCount(m: map<nat, Record>)
    ensures |m| == |m.Keys|
    decreases |m.Keys|
  {
    if m.Keys == {} {
      assert m == map[];
    } else {
      var k :| k in m.Keys;
      var rest := m - {k};
      assert m == rest[k := m[k]] && rest.Keys == m.Keys - {k};
      KeysCount(rest);
    }
  }

  /** What opening, authenticating and closing do to the records: one of them changes, and only as asked. */
  lemma RecordsChange(b: Book, limits: Limits, ip: Ip, id: nat, user: UserId)
    requires Kept(b, limits)
    ensures
      var x := Opened(b, ip);
      b.nextId !in b.connections && x.connections == b.connections[b.nextId := Record(ip, None)]
    ensures id in b.connections ==>
      var x := Authenticated(b, id, user);
      x.connections == b.connections[id := Record(b.connections[id].ip, Some(user))]
    ensures id in b.connections ==> Closed(b, id).connections == b.connections - {id}
  {
  }
}
