/**
 * The backend's user operations over the document store: account creation
 * (duplicate-name check, free-cell search, starter snapshot), login, logout
 * and the read path `getUserData`, which settles the dispatch ledger, writes
 * back only the garrison and the ledger, and sends the display view.
 *
 * The store is two maps: `users` (document id to settlement snapshot) and
 * `cells` (the `map/<x>/<y>` occupancy index, cell to username).
 */
module Users {

  import opened Wrappers
  import opened Protocol
  import opened Settlement
  import Accrual
  import opened Ledger

  /**
   * The SEND_DATA payload: every stored field (`...user`) with the accrued
   * totals, the rebuilt grids, the coordinates as `[x, y]`, the inbox and
   * the settled garrison and ledger laid over it.
   */
  datatype UserView = UserView(
    user: UserRecord,
    lumber: real,
    iron: real,
    clay: real,
    wheat: real,
    fields: seq<seq<GridSlot>>,
    buildings: seq<seq<GridSlot>>,
    mapCoordinates: seq<int>,
    inbox: seq<Letter>,
    troops: Garrison,
    troopsOnMove: seq<Group>)

  datatype ServerMessage = Error(message: string) | SendData(view: UserView)

  const UsernameTakenMessage := "Username already taken."

  /** One client connection: the settlement id it is bound to ("" when none) and what was sent to it. */
  class Connection {
    var id: string
    var sent: seq<ServerMessage>

    constructor ()
      ensures id == "" && sent == []
    {
      id := "";
      sent := [];
    }
  }

  /**
   * No settlement is stored under the empty id (which marks an unbound
   * connection; push keys are never empty), usernames are unique, and every
   * settlement's cell is marked with its owner's name in the occupancy index.
   */
  predicate Consistent(users: map<string, UserRecord>, cells: map<MapCell, string>) {
    && "" !in users
    && (forall a, b :: a in users && b in users && users[a].username == users[b].username ==> a == b)
    && (forall id :: id in users ==> users[id].mapCoordinates in cells && cells[users[id].mapCoordinates] == users[id].username)
  }

  /** In a consistent store no two settlements share a map cell. */
  lemma OneSettlementPerCell(users: map<string, UserRecord>, cells: map<MapCell, string>, a: string, b: string)
    requires Consistent(users, cells)
    requires a in users && b in users && a != b
    ensures users[a].mapCoordinates != users[b].mapCoordinates
  {
  }

  class Store {
    var users: map<string, UserRecord>
    var cells: map<MapCell, string>

    ghost predicate Valid()
      reads this
    {
      Consistent(users, cells)
    }

    constructor ()
      ensures users == map[] && cells == map[] && Valid()
    {
      users := map[];
      cells := map[];
    }
  }

  predicate NameTaken(users: map<string, UserRecord>, username: string) {
    exists id :: id in users && users[id].username == username
  }

  /**
   * Rejection sampling over a sequence of random draws: the first draw that
   * is not occupied, or None when every draw is occupied.
   */
  function FirstFree(draws: seq<MapCell>, cells: map<MapCell, string>): (r: Option<MapCell>)
    ensures r.None? <==> forall k :: 0 <= k < |draws| ==> draws[k] in cells
    ensures r.Some? ==> (r.value !in cells &&
      exists i :: 0 <= i < |draws| && draws[i] == r.value && forall k :: 0 <= k < i ==> draws[k] in cells)
  {
    if draws == [] then None
    else if draws[0] !in cells then Some(draws[0])
    else
      var rest := FirstFree(draws[1..], cells);
      assert rest.Some? ==> exists i :: 0 < i < |draws| && draws[i] == rest.value && forall k :: 0 <= k < i ==> draws[k] in cells by {
        if rest.Some? {
          var j :| 0 <= j < |draws[1..]| && draws[1..][j] == rest.value && forall k :: 0 <= k < j ==> draws[1..][k] in cells;
          assert forall k :: 0 <= k < j + 1 ==> draws[k] in cells by {
            forall k | 0 <= k < j + 1 ensures draws[k] in cells {
              if k > 0 { assert draws[k] == draws[1..][k - 1]; }
            }
          }
        }
      }
      rest
  }

  /**
   * When every cell but (499, 499) is taken and that cell is among the
   * draws, the search lands on it and on nothing already occupied.
   */
  lemma LastFreeCellIsFound(draws: seq<MapCell>, cells: map<MapCell, string>)
    requires forall c :: OnMap(c) && c != MapCell(499, 499) ==> c in cells
    requires MapCell(499, 499) !in cells
    requires forall k :: 0 <= k < |draws| ==> OnMap(draws[k])
    requires MapCell(499, 499) in draws
    ensures FirstFree(draws, cells) == Some(MapCell(499, 499))
  {
    var i :| 0 <= i < |draws| && draws[i] == MapCell(499, 499);
    assert draws[i] !in cells;
  }

  /**
   * `createNewAccount`. A taken username yields an ERROR message and no
   * write. Otherwise the random draws are tried in order until one hits an
   * unoccupied cell; that cell is marked with the username and the starter
   * snapshot is stored under the new id (`push`), to which the connection is
   * bound. If every draw is occupied the search has not finished
   * (StillSearching) and nothing is written.
   */
  datatype Creation = UsernameTaken | Created(id: string, cell: MapCell) | StillSearching

  method CreateNewAccount(store: Store, conn: Connection, username: string, passwordHash: string,
                          draws: seq<MapCell>, newId: string, now: int) returns (outcome: Creation)
    requires forall k :: 0 <= k < |draws| ==> OnMap(draws[k])
    requires newId != "" && newId !in store.users
    modifies store, conn
    ensures old(store.Valid()) ==> store.Valid()
    ensures outcome.UsernameTaken? <==> NameTaken(old(store.users), username)
    ensures outcome.UsernameTaken? ==>
      && store.users == old(store.users) && store.cells == old(store.cells)
      && conn.id == old(conn.id) && conn.sent == old(conn.sent) + [Error(UsernameTakenMessage)]
    ensures outcome.StillSearching? ==>
      && (forall k :: 0 <= k < |draws| ==> draws[k] in old(store.cells))
      && store.users == old(store.users) && store.cells == old(store.cells)
      && conn.id == old(conn.id) && conn.sent == old(conn.sent)
    ensures outcome.Created? ==>
      && FirstFree(draws, old(store.cells)) == Some(outcome.cell)
      && outcome.cell !in old(store.cells) && OnMap(outcome.cell)
      && outcome.id == newId
      && store.cells == old(store.cells)[outcome.cell := username]
      && store.users == old(store.users)[newId := StarterSnapshot(username, passwordHash, outcome.cell, now)]
      && conn.id == newId && conn.sent == old(conn.sent)
  {
    if NameTaken(store.users, username) {
      conn.sent := conn.sent + [Error(UsernameTakenMessage)];
      return UsernameTaken;
    }
    var i := 0;
    while i < |draws| && draws[i] in store.cells
      invariant 0 <= i <= |draws|
      invariant forall k :: 0 <= k < i ==> draws[k] in store.cells
    {
      i := i + 1;
    }
    if i == |draws| {
      return StillSearching;
    }
    var cell := draws[i];
    FirstFreeIsFirstUnoccupied(draws, store.cells, i);
    ghost var before := store.users;
    store.cells := store.cells[cell := username];
    var snapshot := StarterSnapshot(username, passwordHash, cell, now);
    store.users := store.users[newId := snapshot];
    conn.id := newId;
    outcome := Created(newId, cell);
    if old(store.Valid()) {
      assert forall id :: id in before ==> before[id].username != username;
    }
  }

  /** The first unoccupied draw is the one FirstFree picks. */
  lemma {:induction false} FirstFreeIsFirstUnoccupied(draws: seq<MapCell>, cells: map<MapCell, string>, i: int)
    requires 0 <= i < |draws| && draws[i] !in cells
    requires forall k :: 0 <= k < i ==> draws[k] in cells
    ensures FirstFree(draws, cells) == Some(draws[i])
  {
    if i > 0 {
      FirstFreeIsFirstUnoccupied(draws[1..], cells, i - 1);
    }
  }

  /**
   * `login`: the settlement with this username whose stored hash matches the
   * password gets the token `Bearer <signed id>`, and the connection is bound
   * to it; otherwise nothing changes and no token is returned. Password
   * checking and signing are parameters.
   */
  method Login(store: Store, conn: Connection, username: string, password: string,
               passwordMatches: (string, string) -> bool, sign: string -> string) returns (token: Option<string>)
    modifies store, conn
    ensures store.cells == old(store.cells) && conn.sent == old(conn.sent)
    ensures old(store.Valid()) ==> store.Valid()
    ensures token.Some? ==>
      && conn.id in old(store.users)
      && old(store.users)[conn.id].username == username
      && passwordMatches(password, old(store.users)[conn.id].passwordHash)
      && token.value == "Bearer " + sign(conn.id)
      && store.users == old(store.users)[conn.id := old(store.users)[conn.id].(token := token)]
    ensures token.None? ==> store.users == old(store.users) && conn.id == old(conn.id)
    ensures token.None? && old(store.Valid()) ==>
      forall id :: id in old(store.users) && old(store.users)[id].username == username ==>
        !passwordMatches(password, old(store.users)[id].passwordHash)
  {
    if !NameTaken(store.users, username) {
      return None;
    }
    var id :| id in store.users && store.users[id].username == username;
    var user := store.users[id];
    if !passwordMatches(password, user.passwordHash) {
      return None;
    }
    token := Some("Bearer " + sign(id));
    store.users := store.users[id := user.(token := token)];
    conn.id := id;
  }

  /** `logout`: the stored token of the bound settlement is removed and the connection unbound. */
  method Logout(store: Store, conn: Connection)
    modifies store, conn
    ensures conn.id == "" && conn.sent == old(conn.sent)
    ensures store.cells == old(store.cells)
    ensures store.users == if old(conn.id) in old(store.users)
      then old(store.users)[old(conn.id) := old(store.users)[old(conn.id)].(token := None)]
      else old(store.users)
    ensures old(store.Valid()) ==> store.Valid()
    ensures old(store.Valid()) && old(conn.id) == "" ==> store.users == old(store.users)
  {
    if conn.id in store.users {
      store.users := store.users[conn.id := store.users[conn.id].(token := None)];
    }
    conn.id := "";
  }

  /** The rows and slots of a stored grid, pushed one by one into a fresh grid. */
  method RebuildGrid(stored: seq<seq<GridSlot>>) returns (grid: seq<seq<GridSlot>>)
    ensures |grid| == |stored|
    ensures forall r :: 0 <= r < |grid| ==> grid[r] == stored[r]
  {
    grid := [];
    for r := 0 to |stored|
      invariant grid == stored[..r]
    {
      var rowToPush: seq<GridSlot> := [];
      for c := 0 to |stored[r]|
        invariant rowToPush == stored[r][..c]
      {
        rowToPush := rowToPush + [stored[r][c]];
      }
      assert rowToPush == stored[r];
      grid := grid + [rowToPush];
    }
  }

  /**
   * The stored document after a read: only the garrison and the ledger are
   * rewritten; stocks, caps, rates and the timestamp are left as they were,
   * and a settlement with no troops on the move is not written at all.
   */
  function AfterRead(u: UserRecord, now: int, battle: Battle): (v: UserRecord)
    ensures v == u.(troops := v.troops, troopsOnMove := v.troopsOnMove)
    ensures v.troops == Garrisoned(u.troops, u.troopsOnMove, now)
    ensures v.troopsOnMove == Kept(u.username, u.troopsOnMove, now, battle)
    ensures u.troopsOnMove == [] ==> v == u
  {
    u.(troops := Garrisoned(u.troops, u.troopsOnMove, now),
       troopsOnMove := Kept(u.username, u.troopsOnMove, now, battle))
  }

  /** The SEND_DATA view of a read of `u` at `now`. */
  function ReadView(u: UserRecord, now: int, battle: Battle): (view: UserView)
    ensures view.user == u
    ensures view.lumber <= u.maxLumber && view.iron <= u.maxIron && view.clay <= u.maxClay && view.wheat <= u.maxWheat
    ensures view.troops == AfterRead(u, now, battle).troops
    ensures view.troopsOnMove == AfterRead(u, now, battle).troopsOnMove
  {
    var shown := Accrual.Displayed(u, now);
    var after := AfterRead(u, now, battle);
    UserView(u, shown.lumber, shown.iron, shown.clay, shown.wheat,
             u.fields, u.buildings,
             [u.mapCoordinates.x, u.mapCoordinates.y],
             u.inbox, after.troops, after.troopsOnMove)
  }

  /**
   * `getUserData`: reads the bound settlement; if it exists, rebuilds the
   * grids, settles the ledger, writes back `{troops, troopsOnMove}` when the
   * stored ledger is not empty, and sends the view. An unknown id sends
   * nothing.
   */
  method GetUserData(store: Store, conn: Connection, now: int, battle: Battle)
    modifies store, conn
    ensures conn.id == old(conn.id) && store.cells == old(store.cells)
    ensures old(conn.id) !in old(store.users) ==> store.users == old(store.users) && conn.sent == old(conn.sent)
    ensures old(conn.id) in old(store.users) ==>
      var u := old(store.users)[old(conn.id)];
      && store.users == old(store.users)[old(conn.id) := AfterRead(u, now, battle)]
      && conn.sent == old(conn.sent) + [SendData(ReadView(u, now, battle))]
    ensures old(store.Valid()) ==> store.Valid()
    ensures old(store.Valid()) && old(conn.id) == "" ==> store.users == old(store.users) && conn.sent == old(conn.sent)
  {
    if conn.id !in store.users {
      return;
    }
    var user := store.users[conn.id];
    var fields := RebuildGrid(user.fields);
    var buildings := RebuildGrid(user.buildings);
    var troops := user.troops;
    var troopsOnMove: seq<Group> := [];
    if user.troopsOnMove != [] {
      troops, troopsOnMove := SettleLedger(user.username, user.troopsOnMove, troops, now, battle);
      store.users := store.users[conn.id := user.(troops := troops, troopsOnMove := troopsOnMove)];
    } else {
      assert old(store.users)[conn.id := user] == old(store.users);
    }
    var shown := Accrual.Displayed(user, now);
    var view := UserView(user, shown.lumber, shown.iron, shown.clay, shown.wheat,
                         fields, buildings,
                         [user.mapCoordinates.x, user.mapCoordinates.y],
                         user.inbox, troops, troopsOnMove);
    assert fields == user.fields && buildings == user.buildings;
    conn.sent := conn.sent + [SendData(view)];
  }

  /**
   * Reads settle each dispatched group once: when every battle result heads
   * back with a later arrival time, a second read at the same instant
   * rewrites nothing and shows the same totals, garrison and ledger.
   */
  lemma RepeatedReadChangesNothing(u: UserRecord, now: int, battle: Battle)
    requires forall i :: 0 <= i < |u.troopsOnMove| && OutboundArrived(u.troopsOnMove[i], now) && battle(u.username, u.troopsOnMove[i]).Some? ==>
      InFlight(battle(u.username, u.troopsOnMove[i]).value, now)
    ensures var once := AfterRead(u, now, battle);
      && AfterRead(once, now, battle) == once
      && Accrual.Displayed(once, now) == Accrual.Displayed(u, now)
  {
    SettledLedgerIsStable(u.username, u.troops, u.troopsOnMove, now, battle);
    var once := AfterRead(u, now, battle);
    SettledLedgerIsStable(u.username, once.troops, u.troopsOnMove, now, battle);
    Accrual.DisplayedIgnoresTroops(u, once.troops, once.troopsOnMove, now);
  }
}
