/**
 Seats, holds and the host of a lobby: `LobbyRoster` of server-game/src/rooms/lobby-state.ts, and the export of
 a roster when its room moves to another server (server-game/src/rooms/room.ts).
 */
module LobbyRoster {
  import opened Wrappers

  type UserId = nat

  const MAX_PLAYERS_PER_ROOM := 8

  datatype SeatHold = SeatHold(seat: nat, expiresAt: int)

  datatype Member = Member(playerId: nat, slot: nat, colorIndex: nat, joinedOrder: nat)

  datatype Roster = Roster(holds: map<UserId, SeatHold>, members: map<UserId, Member>, joinOrder: nat,
      host: Option<UserId>)

  const EMPTY := Roster(map[], map[], 0, None)

  predicate Occupied(r: Roster, seat: nat) {
    (exists u :: u in r.holds && r.holds[u].seat == seat) || (exists u :: u in r.members && r.members[u].slot == seat)
  }

  /** Is the seat taken by anybody but this user? */
  predicate TakenByOther(r: Roster, seat: nat, user: UserId) {
    (exists u :: u in r.holds && u != user && r.holds[u].seat == seat)
    || (exists u :: u in r.members && u != user && r.members[u].slot == seat)
  }

  ghost predicate SeatsDistinct(r: Roster) {
    && (forall u, v {:trigger r.holds[u].seat, r.holds[v].seat} ::
          u in r.holds && v in r.holds && u != v ==> r.holds[u].seat != r.holds[v].seat)
    && (forall u, v {:trigger r.members[u].slot, r.members[v].slot} ::
          u in r.members && v in r.members && u != v ==> r.members[u].slot != r.members[v].slot)
    && (forall u, v {:trigger r.holds[u].seat, r.members[v].slot} ::
          u in r.holds && v in r.members ==> r.holds[u].seat != r.members[v].slot)
  }

  ghost predicate SeatsInRange(r: Roster, capacity: nat) {
    && (forall u :: u in r.holds ==> 1 <= r.holds[u].seat <= capacity)
    && (forall u :: u in r.members ==> 1 <= r.members[u].slot <= capacity)
  }

  /** One number in the lobby, on the body and on the palette. */
  ghost predicate OneNumber(r: Roster) {
    forall u :: u in r.members ==> r.members[u].slot == r.members[u].playerId == r.members[u].colorIndex + 1
  }

  ghost predicate OrdersDistinct(r: Roster) {
    && (forall u :: u in r.members ==> r.members[u].joinedOrder < r.joinOrder)
    && (forall u, v {:trigger r.members[u].joinedOrder, r.members[v].joinedOrder} ::
          u in r.members && v in r.members && u != v ==> r.members[u].joinedOrder != r.members[v].joinedOrder)
  }

  /** Everything about a roster except who its host is. */
  ghost predicate Seated(r: Roster, capacity: nat) {
    r.holds.Keys !! r.members.Keys && SeatsDistinct(r) && SeatsInRange(r, capacity) && OneNumber(r) && OrdersDistinct(r)
  }

  /** The host is a member whenever there is one, and nobody otherwise. */
  ghost predicate Hosted(r: Roster) {
    if r.members == map[] then r.host == None else r.host.Some? && r.host.value in r.members
  }

  /** The member who joined first. */
  ghost predicate Eldest(members: map<UserId, Member>, user: UserId) {
    user in members && forall u :: u in members ==> members[user].joinedOrder <= members[u].joinedOrder
  }

  function Live(holds: map<UserId, SeatHold>, now: int): map<UserId, SeatHold> {
    map u | u in holds && holds[u].expiresAt > now :: holds[u]
  }

  function Claimed(r: Roster, user: UserId): Roster
    requires user in r.holds && r.holds[user].seat > 0
  {
    var seat := r.holds[user].seat;
    Roster(r.holds - {user}, r.members[user := Member(seat, seat, seat - 1, r.joinOrder)], r.joinOrder + 1,
           if r.host.None? then Some(user) else r.host)
  }

  datatype HoldResult = Held(playerId: nat) | Duplicate | Full

  datatype MoveSlotResult = MoveDone | NotFound | OutOfRange | SeatOccupied

  /** A member as a hand-off carries it. */
  datatype Carried = Carried(user: UserId, member: Member, isHost: bool)

  class LobbyRoster {
    const capacity: nat
    var holds: map<UserId, SeatHold>
    var members: map<UserId, Member>
    var joinOrder: nat
    var host: Option<UserId>

    constructor (capacity: nat)
      requires 1 <= capacity <= MAX_PLAYERS_PER_ROOM
      ensures this.capacity == capacity && Model() == EMPTY && Valid()
    {
      this.capacity := capacity;
      holds, members, joinOrder, host := map[], map[], 0, None;
    }

    function Model(): Roster
      reads this
    {
      Roster(holds, members, joinOrder, host)
    }

    ghost predicate Valid()
      reads this
    {
      1 <= capacity <= MAX_PLAYERS_PER_ROOM && Seated(Model(), capacity) && Hosted(Model())
    }

    method Hold(user: UserId, expiresAt: int, blocked: set<nat>) returns (result: HoldResult)
      requires Valid()
      modifies this`holds
      ensures Valid()
      ensures result.Duplicate? <==> user in old(holds) || user in members
      ensures result.Full? <==>
        (user !in old(holds) && user !in members
         && forall seat :: 1 <= seat <= capacity ==> seat in blocked || Occupied(old(Model()), seat))
      ensures result.Held? ==>
        && 1 <= result.playerId <= capacity && result.playerId !in blocked && !Occupied(old(Model()), result.playerId)
        && (forall seat :: 1 <= seat < result.playerId ==> seat in blocked || Occupied(old(Model()), seat))
      ensures holds == if result.Held? then old(holds)[user := SeatHold(result.playerId, expiresAt)] else old(holds)
    {
      if user in members || user in holds {
        return Duplicate;
      }
      var seat := FirstFreeSeat(blocked);
      if seat.None? {
        return Full;
      }
      HoldSeats(Model(), capacity, user, SeatHold(seat.value, expiresAt));
      holds := holds[user := SeatHold(seat.value, expiresAt)];
      return Held(seat.value);
    }

    method Claim(user: UserId, now: int) returns (member: Option<Member>)
      requires Valid()
      modifies this
      ensures Valid()
      ensures member.Some? <==> user in old(holds) && old(holds)[user].expiresAt > now
      ensures member.Some? ==> Model() == Claimed(old(Model()), user) && member.value == members[user]
      ensures member.None? ==> Model() == old(Model()).(holds := old(holds) - {user})
    {
      ghost var before := Model();
      if user !in holds || holds[user].expiresAt <= now {
        FewerHolds(before, capacity, holds - {user});
        holds := holds - {user};
        assert Model() == before.(holds := before.holds - {user});
        return None;
      }
      ClaimSeats(before, capacity, user);
      SitDown(user);
      member := Some(members[user]);
    }

    method SitDown(user: UserId)
      requires user in holds && holds[user].seat > 0
      modifies this
      ensures Model() == Claimed(old(Model()), user)
    {
      var hold := holds[user];
      holds := holds - {user};
      var seated := Member(hold.seat, hold.seat, hold.seat - 1, joinOrder);
      joinOrder := joinOrder + 1;
      members := members[user := seated];
      if host.None? {
        host := Some(user);
      }
    }

    /** The members of a room that moved here, seated one after the other, whoever is here already. */
    method AdoptMembers(carried: seq<Carried>)
      requires Valid()
      modifies this
      ensures Model() == Adopted(old(Model()), carried)
      ensures NewUsers(old(Model()), carried) ==> (Valid() <==> Adoptable(old(Model()), carried, capacity))
    {
      var i := 0;
      while i < |carried|
        invariant i <= |carried|
        invariant Model() == Adopted(old(Model()), carried[..i])
      {
        assert carried[..i + 1][..i] == carried[..i];
        Adopt(carried[i]);
        i := i + 1;
      }
      assert carried[..i] == carried;
      if NewUsers(old(Model()), carried) {
        AdoptionSeats(old(Model()), carried, capacity);
      }
    }

    method Adopt(c: Carried)
      modifies this
      ensures Model() == AdoptedOne(old(Model()), c)
    {
      members := members[c.user := c.member];
      joinOrder := if joinOrder >= c.member.joinedOrder + 1 then joinOrder else c.member.joinedOrder + 1;
      if c.isHost {
        host := Some(c.user);
      }
    }

    method ReleaseHold(user: UserId) returns (released: bool)
      requires Valid()
      modifies this`holds
      ensures Valid() && (released <==> user in old(holds)) && holds == old(holds) - {user}
    {
      released := user in holds;
      holds := holds - {user};
    }

    method ClearHolds()
      requires Valid()
      modifies this`holds
      ensures Valid() && holds == map[]
    {
      holds := map[];
    }

    method PurgeExpiredHolds(now: int) returns (removed: nat)
      requires Valid()
      modifies this`holds
      ensures Valid()
      ensures holds == Live(old(holds), now)
      ensures forall u :: u in holds <==> u in old(holds) && old(holds)[u].expiresAt > now
      ensures removed == |old(holds).Keys - holds.Keys|
    {
      ghost var before := Model();
      removed := DropExpired(now);
      FewerHolds(before, capacity, holds);
      assert Model() == before.(holds := holds);
    }

    method DropExpired(now: int) returns (removed: nat)
      modifies this`holds
      ensures holds == Live(old(holds), now)
      ensures removed == |old(holds).Keys - Live(old(holds), now).Keys|
    {
      removed := 0;
      var todo := holds.Keys;
      ghost var before := holds;
      ghost var gone: set<UserId> := {};
      while todo != {}
        invariant todo <= before.Keys && gone <= before.Keys && gone !! todo && removed == |gone|
        invariant holds == before - gone
        invariant forall u :: u in gone ==> before[u].expiresAt <= now
        invariant forall u :: u in before && u !in todo && u !in gone ==> before[u].expiresAt > now
        decreases todo
      {
        var u :| u in todo;
        todo := todo - {u};
        if holds[u].expiresAt <= now {
          holds := holds - {u};
          gone := gone + {u};
          removed := removed + 1;
        }
      }
      assert holds == Live(before, now);
      assert gone == before.Keys - Live(before, now).Keys;
    }

    method Remove(user: UserId) returns (hostChanged: Option<bool>)
      requires Valid()
      modifies this
      ensures Valid()
      ensures hostChanged.Some? <==> user in old(members)
      ensures members == old(members) - {user} && holds == old(holds) && joinOrder == old(joinOrder)
      ensures hostChanged.Some? ==> (hostChanged.value <==> old(host) == Some(user))
      ensures hostChanged != Some(true) ==> host == old(host)
      ensures hostChanged == Some(true)
          ==> if members == map[] then host == None else host.Some? && Eldest(members, host.value)
    {
      if user !in members {
        assert members - {user} == members;
        return None;
      }
      ghost var before := Model();
      members := members - {user};
      hostChanged := Some(host == Some(user));
      if host == Some(user) {
        host := FirstMember();
      }
      RemoveKeeps(before, capacity, user, host);
      assert Model() == before.(members := before.members - {user}, host := host);
    }

    method PassHost(requester: UserId, playerId: nat) returns (passed: bool)
      requires Valid()
      modifies this`host
      ensures Valid()
      ensures passed <==> old(host) == Some(requester) && exists u :: u in members && members[u].playerId == playerId
      ensures if passed then host.Some? && host.value in members && members[host.value].playerId == playerId
              else host == old(host)
    {
      if host != Some(requester) {
        return false;
      }
      var todo := members.Keys;
      while todo != {}
        invariant todo <= members.Keys
        invariant forall u :: u in members && u !in todo ==> members[u].playerId != playerId
        decreases todo
      {
        var u :| u in todo;
        todo := todo - {u};
        if members[u].playerId == playerId {
          host := Some(u);
          return true;
        }
      }
      return false;
    }

    method MoveSlot(user: UserId, target: int) returns (result: MoveSlotResult)
      requires Valid()
      modifies this`members
      ensures Valid()
      ensures result.NotFound? <==> user !in old(members)
      ensures result.OutOfRange? <==> user in old(members) && !(1 <= target <= capacity)
      ensures result.SeatOccupied?
          <==> user in old(members) && 1 <= target <= capacity && TakenByOther(old(Model()), target, user)
      ensures members == if result.MoveDone?
        then old(members)[user := Member(target, target, target - 1, old(members)[user].joinedOrder)] else old(members)
    {
      if user !in members {
        return NotFound;
      }
      if target < 1 || target > capacity {
        return OutOfRange;
      }
      var taken := SlotOccupied(target, Some(user));
      if taken {
        return SeatOccupied;
      }
      MoveSeats(Model(), capacity, user, target);
      members := members[user := members[user].(slot := target, playerId := target, colorIndex := target - 1)];
      return MoveDone;
    }

    method FirstFreeSeat(blocked: set<nat>) returns (seat: Option<nat>)
      requires Valid()
      ensures seat.None? <==> forall s :: 1 <= s <= capacity ==> s in blocked || Occupied(Model(), s)
      ensures seat.Some? ==>
        && 1 <= seat.value <= capacity && seat.value !in blocked && !Occupied(Model(), seat.value)
        && forall s :: 1 <= s < seat.value ==> s in blocked || Occupied(Model(), s)
    {
      var limit := if capacity <= MAX_PLAYERS_PER_ROOM then capacity else MAX_PLAYERS_PER_ROOM;
      var s := 1;
      while s <= limit
        invariant 1 <= s <= limit + 1
        invariant forall t :: 1 <= t < s ==> t in blocked || Occupied(Model(), t)
      {
        var taken := SlotOccupied(s, None);
        if s !in blocked && !taken {
          return Some(s);
        }
        s := s + 1;
      }
      return None;
    }

    method SlotOccupied(slot: nat, except: Option<UserId>) returns (taken: bool)
      ensures taken <==> if except.Some? then TakenByOther(Model(), slot, except.value) else Occupied(Model(), slot)
    {
      var todo := holds.Keys;
      while todo != {}
        invariant todo <= holds.Keys
        invariant forall u :: u in holds && u !in todo && Some(u) != except ==> holds[u].seat != slot
        decreases todo
      {
        var u :| u in todo;
        todo := todo - {u};
        if Some(u) != except && holds[u].seat == slot {
          return true;
        }
      }
      todo := members.Keys;
      while todo != {}
        invariant todo <= members.Keys
        invariant forall u :: u in members && u !in todo && Some(u) != except ==> members[u].slot != slot
        decreases todo
      {
        var u :| u in todo;
        todo := todo - {u};
        if Some(u) != except && members[u].slot == slot {
          return true;
        }
      }
      return false;
    }

    /** The head of the members sorted by when they joined. */
    method FirstMember() returns (first: Option<UserId>)
      ensures if members == map[] then first == None else first.Some? && Eldest(members, first.value)
    {
      first := None;
      var todo := members.Keys;
      while todo != {}
        invariant todo <= members.Keys
        invariant first.None? <==> todo == members.Keys
        invariant first.Some? ==> first.value in members
        invariant first.Some? ==> forall u ::
            u in members && u !in todo ==> members[first.value].joinedOrder <= members[u].joinedOrder
        decreases todo
      {
        var u :| u in todo;
        todo := todo - {u};
        if first.None? || members[u].joinedOrder < members[first.value].joinedOrder {
          first := Some(u);
        }
      }
      assert members.Keys == {} ==> members == map[];
    }
  }

  // ---------------------------------------------------------------------------------------------
  // What the steps keep

  lemma FewerHolds(r: Roster, capacity: nat, holds: map<UserId, SeatHold>)
    requires Seated(r, capacity) && forall u :: u in holds ==> u in r.holds && holds[u] == r.holds[u]
    ensures Seated(r.(holds := holds), capacity)
  {
  }

  lemma FewerMembers(r: Roster, capacity: nat, user: UserId)
    requires Seated(r, capacity)
    ensures Seated(r.(members := r.members - {user}), capacity)
  {
  }

  lemma AnyHostSeated(r: Roster, capacity: nat, host: Option<UserId>)
    requires Seated(r, capacity)
    ensures Seated(r.(host := host), capacity)
  {
  }

  lemma RemoveKeeps(r: Roster, capacity: nat, user: UserId, host: Option<UserId>)
    requires Seated(r, capacity) && Hosted(r) && user in r.members
    requires
      var members := r.members - {user};
      if r.host != Some(user) then host == r.host
      else if members == map[] then host == None
      else host.Some? && host.value in members
    ensures
      var x := r.(members := r.members - {user}, host := host);
      Seated(x, capacity) && Hosted(x)
  {
    FewerMembers(r, capacity, user);
    AnyHostSeated(r.(members := r.members - {user}), capacity, host);
    assert r.host != Some(user) ==> r.host.value in r.members - {user};
  }

  lemma ClaimHosted(r: Roster, user: UserId)
    requires Hosted(r) && user in r.holds && r.holds[user].seat > 0
    ensures Hosted(Claimed(r, user))
  {
    assert user in Claimed(r, user).members;
  }

  lemma HoldDistinct(r: Roster, user: UserId, hold: SeatHold)
    requires SeatsDistinct(r) && user !in r.holds && !Occupied(r, hold.seat)
    ensures SeatsDistinct(r.(holds := r.holds[user := hold]))
  {
    assert forall u :: u in r.holds ==> r.holds[u].seat != hold.seat;
    assert forall u :: u in r.members ==> r.members[u].slot != hold.seat;
  }

  /** A user without a seat gets a free one held. */
  lemma HoldSeats(r: Roster, capacity: nat, user: UserId, hold: SeatHold)
    requires Seated(r, capacity) && user !in r.holds && user !in r.members
    requires 1 <= hold.seat <= capacity && !Occupied(r, hold.seat)
    ensures Seated(r.(holds := r.holds[user := hold]), capacity)
  {
    HoldDistinct(r, user, hold);
  }

  lemma ClaimDistinct(r: Roster, user: UserId)
    requires SeatsDistinct(r) && user in r.holds && r.holds[user].seat > 0
    ensures SeatsDistinct(Claimed(r, user))
  {
  }

  lemma ClaimOrders(r: Roster, user: UserId)
    requires OrdersDistinct(r) && user in r.holds && r.holds[user].seat > 0
    ensures OrdersDistinct(Claimed(r, user))
  {
  }

  /** A claimed hold becomes a member in the same seat, and the host of an empty lobby. */
  lemma ClaimSeats(r: Roster, capacity: nat, user: UserId)
    requires Seated(r, capacity) && Hosted(r) && user in r.holds
    ensures Seated(Claimed(r, user), capacity) && Hosted(Claimed(r, user))
  {
    ClaimDistinct(r, user);
    ClaimOrders(r, user);
    ClaimHosted(r, user);
  }

  function Moved(r: Roster, user: UserId, seat: nat): Roster
    requires user in r.members && seat > 0
  {
    r.(members := r.members[user := Member(seat, seat, seat - 1, r.members[user].joinedOrder)])
  }

  lemma MoveDistinct(r: Roster, user: UserId, seat: nat)
    requires SeatsDistinct(r) && user in r.members && seat > 0 && !TakenByOther(r, seat, user) && user !in r.holds
    ensures SeatsDistinct(Moved(r, user, seat))
  {
    assert forall u :: u in r.holds ==> r.holds[u].seat != seat;
    assert forall u :: u in r.members && u != user ==> r.members[u].slot != seat;
  }

  lemma MoveOrders(r: Roster, user: UserId, seat: nat)
    requires OrdersDistinct(r) && user in r.members && seat > 0
    ensures OrdersDistinct(Moved(r, user, seat))
  {
  }

  /** A member moves to a seat nobody else has. */
  lemma MoveSeats(r: Roster, capacity: nat, user: UserId, seat: nat)
    requires Seated(r, capacity) && Hosted(r) && user in r.members && 1 <= seat <= capacity
        && !TakenByOther(r, seat, user)
    ensures Seated(Moved(r, user, seat), capacity) && Hosted(Moved(r, user, seat))
  {
    MoveDistinct(r, user, seat);
    MoveOrders(r, user, seat);
  }

  // ---------------------------------------------------------------------------------------------
  // Seats are counted

  /** The seat of everybody who has one. */
  function SeatOf(r: Roster): (seats: map<UserId, nat>)
    ensures seats.Keys == r.members.Keys + r.holds.Keys
  {
    map u | u in r.members.Keys + r.holds.Keys :: if u in r.members then r.members[u].slot else r.holds[u].seat
  }

  lemma SeatsCounted(r: Roster, capacity: nat)
    requires Seated(r, capacity)
    ensures |r.members.Keys + r.holds.Keys| <= capacity
  {
    Pigeonhole(SeatOf(r), capacity);
  }

  lemma DisjointSizes(a: set<UserId>, b: set<UserId>)
    requires a !! b
    ensures |a + b| == |a| + |b|
  {
  }

  /** Members and holds together never exceed the seats. */
  lemma NeverOverfull(r: Roster, capacity: nat)
    requires Seated(r, capacity)
    ensures |r.members.Keys| + |r.holds.Keys| <= capacity
  {
    SeatsCounted(r, capacity);
    DisjointSizes(r.members.Keys, r.holds.Keys);
  }

  lemma {:induction false} Pigeonhole(seats: map<UserId, nat>, capacity: nat)
    requires forall u :: u in seats ==> 1 <= seats[u] <= capacity
    requires forall u, v :: u in seats && v in seats && u != v ==> seats[u] != seats[v]
    ensures |seats.Keys| <= capacity
    decreases capacity
  {
    if seats.Keys != {} {
      if u :| u in seats && seats[u] == capacity {
        assert (seats - {u}).Keys == seats.Keys - {u};
        Pigeonhole(seats - {u}, capacity - 1);
      } else {
        Pigeonhole(seats, capacity - 1);
      }
    }
  }

  // ---------------------------------------------------------------------------------------------
  // Moving a roster to another server

  /** Users that are not members yet, each listed once. */
  ghost predicate NewUsers(r: Roster, carried: seq<Carried>) {
    UsersDistinct(carried) && forall i :: 0 <= i < |carried| ==> carried[i].user !in r.members
  }

  /** The carried members fit beside each other and beside who is here: seats, numbers and join orders. */
  ghost predicate SeatsFit(r: Roster, carried: seq<Carried>, capacity: nat) {
    && (forall i, j :: 0 <= i < j < |carried| ==>
          carried[i].member.slot != carried[j].member.slot
              && carried[i].member.joinedOrder != carried[j].member.joinedOrder)
    && (forall i :: 0 <= i < |carried| ==>
          && 1 <= carried[i].member.slot <= capacity
          && carried[i].member.slot == carried[i].member.playerId == carried[i].member.colorIndex + 1
          && carried[i].user !in r.holds && !Occupied(r, carried[i].member.slot))
    && (forall i, u ::
        0 <= i < |carried| && u in r.members ==> carried[i].member.joinedOrder != r.members[u].joinedOrder)
  }

  /** They fit, and an empty lobby gets a host with them. */
  ghost predicate Adoptable(r: Roster, carried: seq<Carried>, capacity: nat) {
    && SeatsFit(r, carried, capacity)
    && (carried != [] && r.members == map[] ==> exists i :: 0 <= i < |carried| && carried[i].isHost)
  }

  function AdoptedOne(r: Roster, c: Carried): Roster {
    Roster(r.holds, r.members[c.user := c.member],
           if r.joinOrder >= c.member.joinedOrder + 1 then r.joinOrder else c.member.joinedOrder + 1,
           if c.isHost then Some(c.user) else r.host)
  }

  function Adopted(r: Roster, carried: seq<Carried>): Roster
    decreases |carried|
  {
    if carried == [] then r else AdoptedOne(Adopted(r, carried[..|carried| - 1]), carried[|carried| - 1])
  }

  ghost predicate UsersDistinct(carried: seq<Carried>) {
    forall i, j :: 0 <= i < j < |carried| ==> carried[i].user != carried[j].user
  }

  ghost predicate Carries(carried: seq<Carried>, user: UserId) {
    exists i :: 0 <= i < |carried| && carried[i].user == user
  }

  lemma CarriesSnoc(carried: seq<Carried>, user: UserId)
    requires carried != []
    ensures Carries(carried, user) <==> Carries(carried[..|carried| - 1], user) || carried[|carried| - 1].user == user
  {
    var front := carried[..|carried| - 1];
    if Carries(front, user) {
      var i :| 0 <= i < |front| && front[i].user == user;
      assert carried[i].user == user;
    }
    if Carries(carried, user) && carried[|carried| - 1].user != user {
      var i :| 0 <= i < |carried| && carried[i].user == user;
      assert front[i].user == user;
    }
  }

  /** Who is seated after an adoption, and as what: everybody who was here, and everybody carried. */
  ghost predicate Gathers(r: Roster, carried: seq<Carried>, x: Roster) {
    && x.holds == r.holds && r.joinOrder <= x.joinOrder
    && (forall i :: 0 <= i < |carried| ==>
          carried[i].user in x.members && x.members[carried[i].user] == carried[i].member)
    && (forall i :: 0 <= i < |carried| ==> carried[i].member.joinedOrder < x.joinOrder)
    && (forall u :: u in r.members ==> u in x.members && x.members[u] == r.members[u])
    && (forall u :: u in x.members ==> u in r.members || Carries(carried, u))
  }

  lemma {:induction false} AdoptedMembers(r: Roster, carried: seq<Carried>)
    requires NewUsers(r, carried)
    ensures Gathers(r, carried, Adopted(r, carried))
    decreases |carried|
  {
    if carried != [] {
      var front := carried[..|carried| - 1];
      AdoptedMembers(r, front);
      GathersOne(r, carried, Adopted(r, front));
    }
  }

  lemma GathersOne(r: Roster, carried: seq<Carried>, x: Roster)
    requires carried != [] && NewUsers(r, carried) && Gathers(r, carried[..|carried| - 1], x)
    ensures Gathers(r, carried, AdoptedOne(x, carried[|carried| - 1]))
  {
    var after := AdoptedOne(x, carried[|carried| - 1]);
    forall u | u in after.members ensures u in r.members || Carries(carried, u) {
      CarriesSnoc(carried, u);
    }
  }

  ghost predicate Marks(carried: seq<Carried>, user: UserId) {
    exists i :: 0 <= i < |carried| && carried[i].isHost && carried[i].user == user
  }

  /** The host after an adoption is one that was marked, or still the one before when none was. */
  lemma {:induction false} AdoptedHost(r: Roster, carried: seq<Carried>)
    ensures
      var x := Adopted(r, carried);
      if exists i :: 0 <= i < |carried| && carried[i].isHost then x.host.Some? && Marks(carried, x.host.value)
      else x.host == r.host
    decreases |carried|
  {
    if carried != [] {
      var n := |carried| - 1;
      var front := carried[..n];
      AdoptedHost(r, front);
      if carried[n].isHost {
        assert Marks(carried, carried[n].user);
      } else if i :| 0 <= i < |carried| && carried[i].isHost {
        assert front[i].isHost;
        var j :| 0 <= j < |front| && front[j].isHost && front[j].user == Adopted(r, front).host.value;
        assert carried[j].isHost;
      } else {
        assert forall i :: 0 <= i < |front| ==> !front[i].isHost;
      }
    }
  }

  /** Each member after an adoption was here before or was carried. */
  lemma MemberFrom(r: Roster, carried: seq<Carried>, user: UserId) returns (i: int)
    requires NewUsers(r, carried) && user in Adopted(r, carried).members
    ensures if user in r.members then i == -1 && Adopted(r, carried).members[user] == r.members[user]
            else 0 <= i < |carried| && carried[i].user == user && Adopted(r, carried).members[user] == carried[i].member
  {
    AdoptedMembers(r, carried);
    if user in r.members {
      i := -1;
    } else {
      assert Carries(carried, user);
      i :| 0 <= i < |carried| && carried[i].user == user;
    }
  }

  /** Everybody after an adoption that fits has a seat and a number of its own, and no hold. */
  lemma FitOne(r: Roster, carried: seq<Carried>, capacity: nat, u: UserId)
    requires Seated(r, capacity) && NewUsers(r, carried) && SeatsFit(r, carried, capacity)
    requires u in Adopted(r, carried).members
    ensures
      var x := Adopted(r, carried);
      var m := x.members[u];
      && u !in x.holds && 1 <= m.slot <= capacity && m.slot == m.playerId == m.colorIndex + 1
      && m.joinedOrder < x.joinOrder && forall h :: h in x.holds ==> x.holds[h].seat != m.slot
  {
    AdoptedMembers(r, carried);
    var i := MemberFrom(r, carried, u);
  }

  lemma FitTwo(r: Roster, carried: seq<Carried>, capacity: nat, u: UserId, v: UserId)
    requires Seated(r, capacity) && NewUsers(r, carried) && SeatsFit(r, carried, capacity)
    requires u in Adopted(r, carried).members && v in Adopted(r, carried).members && u != v
    ensures
      var members := Adopted(r, carried).members;
      members[u].slot != members[v].slot && members[u].joinedOrder != members[v].joinedOrder
  {
    var i := MemberFrom(r, carried, u);
    var j := MemberFrom(r, carried, v);
  }

  lemma FitSeats(r: Roster, carried: seq<Carried>, capacity: nat)
    requires Seated(r, capacity) && NewUsers(r, carried) && SeatsFit(r, carried, capacity)
    ensures Seated(Adopted(r, carried), capacity)
  {
    var x := Adopted(r, carried);
    AdoptedHolds(r, carried);
    forall u | u in x.members
      ensures
        var m := x.members[u];
        && u !in x.holds && 1 <= m.slot <= capacity && m.slot == m.playerId == m.colorIndex + 1
        && m.joinedOrder < x.joinOrder && forall h :: h in x.holds ==> x.holds[h].seat != m.slot
    {
      FitOne(r, carried, capacity, u);
    }
    forall u, v | u in x.members && v in x.members && u != v
      ensures x.members[u].slot != x.members[v].slot && x.members[u].joinedOrder != x.members[v].joinedOrder
    {
      FitTwo(r, carried, capacity, u, v);
    }
  }

  lemma AdoptedHolds(r: Roster, carried: seq<Carried>)
    requires NewUsers(r, carried)
    ensures Adopted(r, carried).holds == r.holds
  {
    AdoptedMembers(r, carried);
  }

  lemma SeatedFits(r: Roster, carried: seq<Carried>, capacity: nat)
    requires Seated(Adopted(r, carried), capacity) && NewUsers(r, carried)
    ensures SeatsFit(r, carried, capacity)
  {
    AdoptedMembers(r, carried);
    var x := Adopted(r, carried);
    forall i | 0 <= i < |carried| ensures carried[i].user !in r.holds && !Occupied(r, carried[i].member.slot) {
      assert carried[i].user in x.members;
    }
    forall i, j | 0 <= i < j < |carried|
      ensures carried[i].member.slot != carried[j].member.slot
          && carried[i].member.joinedOrder != carried[j].member.joinedOrder
    {
      assert carried[i].user in x.members && carried[j].user in x.members && carried[i].user != carried[j].user;
    }
  }

  lemma AdoptionHosts(r: Roster, carried: seq<Carried>)
    requires Hosted(r) && NewUsers(r, carried)
    ensures Hosted(Adopted(r, carried))
       <==> (carried != [] && r.members == map[] ==> exists i :: 0 <= i < |carried| && carried[i].isHost)
  {
    AdoptedMembers(r, carried);
    AdoptedHost(r, carried);
    var x := Adopted(r, carried);
    if carried == [] {
    } else {
      assert carried[0].user in x.members;
    }
  }

  /**
   Adopting users that are not here yet gives a valid lobby if and only if they fit beside those who are: seats,
   numbers and join orders are distinct and in range, and a lobby that was empty gets a host.
   */
  lemma AdoptionSeats(r: Roster, carried: seq<Carried>, capacity: nat)
    requires Seated(r, capacity) && Hosted(r) && NewUsers(r, carried)
    ensures Seated(Adopted(r, carried), capacity) && Hosted(Adopted(r, carried)) <==> Adoptable(r, carried, capacity)
  {
    AdoptionHosts(r, carried);
    if SeatsFit(r, carried, capacity) {
      FitSeats(r, carried, capacity);
    }
    if Seated(Adopted(r, carried), capacity) {
      SeatedFits(r, carried, capacity);
    }
  }

  /** `exportForHandOff`: the members with the host marked, in some order of listing. */
  ghost predicate Exports(r: Roster, carried: seq<Carried>) {
    && (forall i, j :: 0 <= i < j < |carried| ==> carried[i].user != carried[j].user)
    && (forall i :: 0 <= i < |carried| ==>
          && carried[i].user in r.members && carried[i].member == r.members[carried[i].user]
          && (carried[i].isHost <==> r.host.Some? && r.host.value in r.members
                                     && carried[i].member.playerId == r.members[r.host.value].playerId))
    && (forall u :: u in r.members ==> Carries(carried, u))
  }

  /** What a valid lobby exports can be adopted, and gives the same members in the same seats with the same host. */
  lemma ExportThenAdopt(r: Roster, carried: seq<Carried>, capacity: nat)
    requires Seated(r, capacity) && Hosted(r) && Exports(r, carried)
    ensures NewUsers(EMPTY, carried) && Adoptable(EMPTY, carried, capacity)
    ensures
      var x := Adopted(EMPTY, carried);
      x.members == r.members && x.host == r.host && x.joinOrder <= r.joinOrder && Seated(x, capacity) && Hosted(x)
  {
    ExportAdoptable(r, carried, capacity);
    AdoptionSeats(EMPTY, carried, capacity);
    JoinOrderBounded(EMPTY, carried, r.joinOrder);
    ExportMembers(r, carried);
    ExportHost(r, carried, capacity);
  }

  lemma ExportMembers(r: Roster, carried: seq<Carried>)
    requires Exports(r, carried)
    ensures Adopted(EMPTY, carried).members == r.members
  {
    AdoptedMembers(EMPTY, carried);
    var x := Adopted(EMPTY, carried);
    forall u ensures u in x.members <==> u in r.members {
      assert u in r.members ==> Carries(carried, u);
    }
    forall u | u in r.members ensures x.members[u] == r.members[u] {
      var i :| 0 <= i < |carried| && carried[i].user == u;
    }
  }

  lemma ExportHost(r: Roster, carried: seq<Carried>, capacity: nat)
    requires Seated(r, capacity) && Hosted(r) && Exports(r, carried) && NewUsers(EMPTY, carried)
        && Adoptable(EMPTY, carried, capacity)
    ensures Adopted(EMPTY, carried).host == r.host
  {
    assert r.members != map[] ==> Carries(carried, r.host.value);
    if carried != [] {
      AdoptedHost(EMPTY, carried);
      var i :| 0 <= i < |carried| && carried[i].isHost && carried[i].user == Adopted(EMPTY, carried).host.value;
      assert r.members[carried[i].user].slot == r.members[r.host.value].slot;
    }
  }

  lemma ExportFits(r: Roster, carried: seq<Carried>, capacity: nat)
    requires Seated(r, capacity) && Exports(r, carried)
    ensures SeatsFit(EMPTY, carried, capacity)
  {
    forall i, j | 0 <= i < j < |carried|
      ensures carried[i].member.slot != carried[j].member.slot
          && carried[i].member.joinedOrder != carried[j].member.joinedOrder
    {
      assert r.members[carried[i].user] == carried[i].member && r.members[carried[j].user] == carried[j].member;
    }
  }

  lemma ExportAdoptable(r: Roster, carried: seq<Carried>, capacity: nat)
    requires Seated(r, capacity) && Hosted(r) && Exports(r, carried)
    ensures NewUsers(EMPTY, carried) && Adoptable(EMPTY, carried, capacity)
  {
    ExportFits(r, carried, capacity);
    if carried != [] {
      assert carried[0].user in r.members && Carries(carried, r.host.value);
      var i :| 0 <= i < |carried| && carried[i].user == r.host.value;
      assert carried[i].isHost;
    }
  }

  lemma {:induction false} JoinOrderBounded(r: Roster, carried: seq<Carried>, bound: nat)
    requires r.joinOrder <= bound && forall i :: 0 <= i < |carried| ==> carried[i].member.joinedOrder < bound
    ensures Adopted(r, carried).joinOrder <= bound
    decreases |carried|
  {
    if carried != [] {
      JoinOrderBounded(r, carried[..|carried| - 1], bound);
    }
  }

  // ---------------------------------------------------------------------------------------------
  // What a claim changes

  /** The hold becomes a member in its seat, joining last; nobody else is touched, and the host of a lobby stays. */
  lemma ClaimChanges(r: Roster, capacity: nat, user: UserId)
    requires Seated(r, capacity) && Hosted(r) && user in r.holds
    ensures
      var x, seat := Claimed(r, user), r.holds[user].seat;
      && x.holds == r.holds - {user} && x.members.Keys == r.members.Keys + {user}
      && (forall u :: u in r.members ==> x.members[u] == r.members[u])
      && x.members[user].slot == x.members[user].playerId == seat && x.members[user].colorIndex == seat - 1
      && (forall u :: u in r.members ==> x.members[u].joinedOrder < x.members[user].joinedOrder)
      && (if r.members == map[] then x.host == Some(user) else x.host == r.host)
  {
  }
}
