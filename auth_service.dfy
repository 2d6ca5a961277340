/**
 * The user table (services/authService.ts): registered users keyed by id and
 * the id of the user currently logged in. Browser storage is the in-memory
 * map `users` and the slot `currentId`; the fresh id signup would draw from
 * the clock and the random source is a parameter.
 */
module AuthService {
  import opened Wrappers
  import opened Types
  import JsText

  const DUPLICATE_NAME: string := "A user with this name already exists."

  /** The `some` test of signup: a stored user has this name, ignoring case. */
  predicate NameTaken(users: map<string, User>, name: string)
    ensures (exists id :: id in users && users[id].name == name) ==> NameTaken(users, name)
    ensures users == map[] ==> !NameTaken(users, name)
  {
    exists id :: id in users && JsText.ToLower(users[id].name) == JsText.ToLower(name)
  }

  /** No two stored users have names that agree when case is ignored. */
  predicate NamesUnique(users: map<string, User>)
  {
    forall a, b :: a in users && b in users && a != b ==>
      JsText.ToLower(users[a].name) != JsText.ToLower(users[b].name)
  }

  /** The record signup stores: the given name and avatar, no games played. */
  function NewUser(id: string, name: string, avatar: string): (u: User)
    ensures u.id == id && u.name == name && u.avatar == avatar
    ensures u.wins == 0 && u.losses == 0 && u.totalBonuses == 0 && !u.isAI
  {
    User(id, name, avatar, 0, 0, 0, false)
  }

  /** Registering a name nobody has keeps the names unique, even if the id was in use. */
  lemma SignupKeepsNamesUnique(users: map<string, User>, id: string, name: string, avatar: string)
    requires NamesUnique(users) && !NameTaken(users, name)
    ensures NamesUnique(users[id := NewUser(id, name, avatar)])
  {
    var after := users[id := NewUser(id, name, avatar)];
    forall a, b | a in after && b in after && a != b
      ensures JsText.ToLower(after[a].name) != JsText.ToLower(after[b].name)
    {
      if a == id {
        assert b in users && after[b] == users[b];
      } else if b == id {
        assert a in users && after[a] == users[a];
      }
    }
  }

  /** Once a name is registered, every spelling of it that differs only in case is taken. */
  lemma RegisteredNameBlocksCaseVariants(users: map<string, User>, id: string, name: string,
                                         avatar: string, other: string)
    requires JsText.ToLower(other) == JsText.ToLower(name)
    ensures NameTaken(users[id := NewUser(id, name, avatar)], other)
  {
    var after := users[id := NewUser(id, name, avatar)];
    assert id in after && JsText.ToLower(after[id].name) == JsText.ToLower(other);
  }

  /** The record updateStats creates for a player not yet stored: the player's identity, zero stats. */
  function Enrolled(p: Player): (u: User)
    ensures u.id == p.id && u.name == p.name && u.avatar == p.avatar && u.isAI == p.isAI
    ensures u.wins == 0 && u.losses == 0 && u.totalBonuses == 0
  {
    User(p.id, p.name, p.avatar, 0, 0, 0, p.isAI)
  }

  function EnsureStored(users: map<string, User>, p: Player): (after: map<string, User>)
    ensures after.Keys == users.Keys + {p.id}
    ensures forall id :: id in users ==> after[id] == users[id]
    ensures p.id !in users ==> after[p.id] == Enrolled(p)
  {
    if p.id in users then users else users[p.id := Enrolled(p)]
  }

  /** The table after updateStats(winner, loser), written as the four updates happen in order. */
  function StatsAfter(users: map<string, User>, winner: Player, loser: Player): (after: map<string, User>)
    ensures after.Keys == users.Keys + {winner.id, loser.id}
    ensures forall id :: id in users && id != winner.id && id != loser.id ==> after[id] == users[id]
  {
    CreditLoss(CreditWin(EnsureStored(EnsureStored(users, winner), loser), winner), loser)
  }

  /** `users[winner.id].wins += 1; users[winner.id].totalBonuses += winner.bonusesEarned`. */
  function CreditWin(users: map<string, User>, winner: Player): (after: map<string, User>)
    requires winner.id in users
    ensures after.Keys == users.Keys
  {
    var w := users[winner.id];
    users[winner.id := w.(wins := w.wins + 1, totalBonuses := w.totalBonuses + winner.bonusesEarned)]
  }

  /** `users[loser.id].losses += 1; users[loser.id].totalBonuses += loser.bonusesEarned`. */
  function CreditLoss(users: map<string, User>, loser: Player): (after: map<string, User>)
    requires loser.id in users
    ensures after.Keys == users.Keys
  {
    var l := users[loser.id];
    users[loser.id := l.(losses := l.losses + 1, totalBonuses := l.totalBonuses + loser.bonusesEarned)]
  }

  /** The record a player's stats start from: the stored one, or zero stats for a new player. */
  function Prior(users: map<string, User>, p: Player): User
  {
    if p.id in users then users[p.id] else Enrolled(p)
  }

  /**
   * For two different players: the winner gains a win, the loser a loss, and
   * each adds the bonuses earned this game; nothing else of theirs changes.
   */
  lemma StatsOfTwoPlayers(users: map<string, User>, winner: Player, loser: Player)
    requires winner.id != loser.id
    ensures var after := StatsAfter(users, winner, loser);
      var w := Prior(users, winner);
      var l := Prior(users, loser);
      after[winner.id] == w.(wins := w.wins + 1, totalBonuses := w.totalBonuses + winner.bonusesEarned)
      && after[loser.id] == l.(losses := l.losses + 1, totalBonuses := l.totalBonuses + loser.bonusesEarned)
  {
  }

  /** A player recorded as both winner and loser gets one win, one loss and both bonus counts. */
  lemma StatsOfSelfMatch(users: map<string, User>, winner: Player, loser: Player)
    requires winner.id == loser.id
    ensures var after := StatsAfter(users, winner, loser);
      var p := Prior(users, winner);
      after[winner.id] == p.(wins := p.wins + 1, losses := p.losses + 1,
                             totalBonuses := p.totalBonuses + winner.bonusesEarned + loser.bonusesEarned)
  {
  }

  class UserTable {
    var users: map<string, User>
    var currentId: Option<string>

    /** Every user is stored under its own id and names are unique up to case. */
    predicate Valid()
      reads this
    {
      (forall id :: id in users ==> users[id].id == id) && NamesUnique(users)
    }

    constructor ()
      ensures users == map[] && currentId == None && Valid()
    {
      users := map[];
      currentId := None;
    }

    /**
     * getLoggedInUser: no id (or an empty one) gives null; an id with no
     * stored user gives null and logs out; otherwise the stored user.
     */
    method GetLoggedInUser() returns (user: Option<User>)
      modifies this
      ensures users == old(users)
      ensures (old(currentId).None? || old(currentId) == Some("")) ==>
        user == None && currentId == old(currentId)
      ensures old(currentId).Some? && old(currentId) != Some("") ==>
        var id := old(currentId).value;
        (id in users ==> user == Some(users[id]) && currentId == old(currentId))
        && (id !in users ==> user == None && currentId == None)
    {
      if currentId.None? || currentId == Some("") {
        return None;
      }
      var id := currentId.value;
      if id !in users {
        currentId := None;
        return None;
      }
      return Some(users[id]);
    }

    /**
     * signup: a name already taken (ignoring case) is refused and nothing
     * changes; otherwise a new user with no games played is stored under
     * `newId` and returned.
     */
    method Signup(name: string, avatar: string, newId: string) returns (res: Result<User, string>)
      modifies this
      ensures currentId == old(currentId)
      ensures NameTaken(old(users), name) ==> res == Failure(DUPLICATE_NAME) && users == old(users)
      ensures !NameTaken(old(users), name) ==>
        res == Success(NewUser(newId, name, avatar)) && users == old(users)[newId := res.value]
      ensures old(Valid()) ==> Valid()
    {
      if NameTaken(users, name) {
        return Failure(DUPLICATE_NAME);
      }
      var user := NewUser(newId, name, avatar);
      if Valid() {
        SignupKeepsNamesUnique(users, newId, name, avatar);
      }
      users := users[user.id := user];
      return Success(user);
    }

    /** deleteUser: removes only that id, and logs out exactly when that user was logged in. */
    method DeleteUser(userId: string)
      modifies this
      ensures users == old(users) - {userId}
      ensures currentId == if old(currentId) == Some(userId) then None else old(currentId)
      ensures old(Valid()) ==> Valid()
    {
      if userId in users {
        users := users - {userId};
      }
      if currentId == Some(userId) {
        currentId := None;
      }
    }

    /** updateStats: store missing players with zero stats, then credit the win, the loss and the bonuses. */
    method UpdateStats(winner: Player, loser: Player)
      modifies this
      ensures users == StatsAfter(old(users), winner, loser)
      ensures currentId == old(currentId)
    {
      if winner.id !in users {
        users := users[winner.id := Enrolled(winner)];
      }
      assert users == EnsureStored(old(users), winner);
      if loser.id !in users {
        users := users[loser.id := Enrolled(loser)];
      }
      ghost var stored := users;
      assert stored == EnsureStored(EnsureStored(old(users), winner), loser);
      var w := users[winner.id];
      users := users[winner.id := w.(wins := w.wins + 1, totalBonuses := w.totalBonuses + winner.bonusesEarned)];
      assert users == CreditWin(stored, winner);
      var l := users[loser.id];
      users := users[loser.id := l.(losses := l.losses + 1, totalBonuses := l.totalBonuses + loser.bonusesEarned)];
    }
  }
}
