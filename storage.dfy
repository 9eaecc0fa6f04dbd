/**
 * The in-memory storage of the server (`server/storage.ts`, class
 * `MemStorage`): users and game scores in two maps keyed by ids drawn from
 * two counters, a merging update, a delete that also removes the user's
 * scores, and filtered, sorted, truncated score queries.
 */
module Storage {

  datatype Opt<T> = None | Some(value: T)

  /** A user record; the nullable columns are `Opt`, `createdAt` a timestamp. */
  datatype User = User(
    id: int,
    email: string,
    password: Opt<string>,
    firstName: string,
    lastName: string,
    phone: Opt<string>,
    avatar: Opt<int>,
    firebaseUid: Opt<string>,
    createdAt: int)

  /** What `createUser` is given: a user without `id` and `createdAt`. */
  datatype InsertUser = InsertUser(
    email: string,
    password: Opt<string>,
    firstName: string,
    lastName: string,
    phone: Opt<string>,
    avatar: Opt<int>,
    firebaseUid: Opt<string>)

  /** One field of a partial update: left out, or given (possibly as null). */
  datatype Field<T> = Keep | Set(value: T)

  /** `Partial<InsertUser>`. */
  datatype UserUpdate = UserUpdate(
    email: Field<string>,
    password: Field<Opt<string>>,
    firstName: Field<string>,
    lastName: Field<string>,
    phone: Field<Opt<string>>,
    avatar: Field<Opt<int>>,
    firebaseUid: Field<Opt<string>>)

  datatype GameScore = GameScore(id: int, userId: Opt<int>, gameType: string, score: int, createdAt: int)

  datatype InsertGameScore = InsertGameScore(userId: Opt<int>, gameType: string, score: int)

  const NoChanges := UserUpdate(Keep, Keep, Keep, Keep, Keep, Keep, Keep)

  function Pick<T>(f: Field<T>, current: T): T {
    if f.Set? then f.value else current
  }

  /** `{ ...existingUser, ...updates }`. */
  function Merge(u: User, p: UserUpdate): (v: User)
    ensures v.id == u.id && v.createdAt == u.createdAt
    ensures p.email == Keep ==> v.email == u.email
    ensures p.email.Set? ==> v.email == p.email.value
    ensures p.password == Keep ==> v.password == u.password
    ensures p.password.Set? ==> v.password == p.password.value
    ensures p.firstName == Keep ==> v.firstName == u.firstName
    ensures p.firstName.Set? ==> v.firstName == p.firstName.value
    ensures p.lastName == Keep ==> v.lastName == u.lastName
    ensures p.lastName.Set? ==> v.lastName == p.lastName.value
    ensures p.phone == Keep ==> v.phone == u.phone
    ensures p.phone.Set? ==> v.phone == p.phone.value
    ensures p.avatar == Keep ==> v.avatar == u.avatar
    ensures p.avatar.Set? ==> v.avatar == p.avatar.value
    ensures p.firebaseUid == Keep ==> v.firebaseUid == u.firebaseUid
    ensures p.firebaseUid.Set? ==> v.firebaseUid == p.firebaseUid.value
  {
    User(u.id, Pick(p.email, u.email), Pick(p.password, u.password),
         Pick(p.firstName, u.firstName), Pick(p.lastName, u.lastName),
         Pick(p.phone, u.phone), Pick(p.avatar, u.avatar),
         Pick(p.firebaseUid, u.firebaseUid), u.createdAt)
  }

  /** An empty update changes nothing, and applying an update twice is applying it once. */
  lemma MergeLaws(u: User, p: UserUpdate)
    ensures Merge(u, NoChanges) == u
    ensures Merge(Merge(u, p), p) == Merge(u, p)
  {
  }

  /**
   * The keys of `keys` in `lo..hi-1`, ascending: the iteration order of a
   * `Map` whose keys were inserted in increasing order.
   */
  function IdOrder(keys: set<int>, lo: int, hi: int): (r: seq<int>)
    decreases hi - lo
    ensures forall i :: 0 <= i < |r| ==> r[i] in keys && lo <= r[i] < hi
    ensures forall i, j :: 0 <= i < j < |r| ==> r[i] < r[j]
  {
    if hi <= lo then []
    else if lo in keys then [lo] + IdOrder(keys, lo + 1, hi)
    else IdOrder(keys, lo + 1, hi)
  }

  /** Every key in range is listed. */
  lemma {:induction false} IdOrderComplete(keys: set<int>, lo: int, hi: int, k: int)
    requires k in keys && lo <= k < hi
    ensures k in IdOrder(keys, lo, hi)
    decreases hi - lo
  {
    if lo < k {
      IdOrderComplete(keys, lo + 1, hi, k);
    }
  }

  /** The values stored under `ids`, in that order. */
  function Values<T>(m: map<int, T>, ids: seq<int>): (r: seq<T>)
    requires forall i :: 0 <= i < |ids| ==> ids[i] in m
    ensures |r| == |ids| && forall i :: 0 <= i < |ids| ==> r[i] == m[ids[i]]
  {
    if ids == [] then [] else [m[ids[0]]] + Values(m, ids[1..])
  }

  /** A user as `find` looks it up. */
  datatype UserKey = ByEmail(email: string) | ByFirebaseUid(uid: string)

  predicate KeyMatches(u: User, key: UserKey) {
    match key
    case ByEmail(e) => u.email == e
    case ByFirebaseUid(uid) => u.firebaseUid == Some(uid)
  }

  /** `Array.prototype.find`: the first user matching `key`. */
  function Find(us: seq<User>, key: UserKey): (r: Opt<User>)
    ensures r.None? <==> forall i :: 0 <= i < |us| ==> !KeyMatches(us[i], key)
    ensures r.Some? ==> exists k :: 0 <= k < |us| && us[k] == r.value && KeyMatches(r.value, key) &&
                               forall j :: 0 <= j < k ==> !KeyMatches(us[j], key)
  {
    if us == [] then None
    else if KeyMatches(us[0], key) then Some(us[0])
    else
      var r := Find(us[1..], key);
      if r.Some? then
        var k :| 0 <= k < |us[1..]| && us[1..][k] == r.value && KeyMatches(r.value, key) &&
          forall j :: 0 <= j < k ==> !KeyMatches(us[1..][j], key);
        assert us[k + 1] == r.value;
        assert forall j :: 0 <= j < k + 1 ==> !KeyMatches(us[j], key) by {
          forall j | 0 <= j < k + 1 ensures !KeyMatches(us[j], key) {
            if j > 0 {
              assert us[j] == us[1..][j - 1];
            }
          }
        }
        r
      else
        assert forall i :: 0 <= i < |us| ==> !KeyMatches(us[i], key) by {
          forall i | 0 <= i < |us| ensures !KeyMatches(us[i], key) {
            if i > 0 {
              assert us[i] == us[1..][i - 1];
            }
          }
        }
        r
  }

  /** In a list sorted by id, `Find` returns the matching user with the smallest id. */
  lemma FindIsFirst(us: seq<User>, key: UserKey, u: User)
    requires forall i, j :: 0 <= i < j < |us| ==> us[i].id < us[j].id
    requires u in us && Find(us, key).Some? && u.id < Find(us, key).value.id
    ensures !KeyMatches(u, key)
  {
    var r := Find(us, key);
    var k :| 0 <= k < |us| && us[k] == r.value && KeyMatches(r.value, key) &&
      forall j :: 0 <= j < k ==> !KeyMatches(us[j], key);
    var j :| 0 <= j < |us| && us[j] == u;
    assert j < k;
  }

  /** The score filters the three queries use. */
  datatype ScoreQuery = OfUser(userId: int) | OfGame(gameType: string) | OfUserAndGame(user: int, game: string)

  predicate Selects(q: ScoreQuery, g: GameScore) {
    match q
    case OfUser(u) => g.userId == Some(u)
    case OfGame(t) => g.gameType == t
    case OfUserAndGame(u, t) => g.userId == Some(u) && g.gameType == t
  }

  /** `Array.prototype.filter` with `Selects(q, _)`. */
  function Filter(s: seq<GameScore>, q: ScoreQuery): (r: seq<GameScore>)
    ensures forall i :: 0 <= i < |r| ==> Selects(q, r[i])
    ensures multiset(r) <= multiset(s)
    ensures forall x :: Selects(q, x) ==> multiset(r)[x] == multiset(s)[x]
  {
    if s == [] then []
    else
      assert s == [s[0]] + s[1..];
      if Selects(q, s[0]) then [s[0]] + Filter(s[1..], q) else Filter(s[1..], q)
  }

  /** What a sort compares on. */
  datatype SortKey = ByScore | ByCreatedAt

  function KeyOf(g: GameScore, k: SortKey): int {
    if k == ByScore then g.score else g.createdAt
  }

  /** Each element's key is at least the next one's. */
  predicate Descending(s: seq<GameScore>, k: SortKey) {
    |s| <= 1 || (KeyOf(s[0], k) >= KeyOf(s[1], k) && Descending(s[1..], k))
  }

  /** `x` placed in front of the first element whose key is not above its own. */
  function Insert(x: GameScore, s: seq<GameScore>, k: SortKey): (r: seq<GameScore>)
    requires Descending(s, k)
    ensures Descending(r, k) && multiset(r) == multiset([x] + s)
    ensures |r| == |s| + 1 && (r[0] == x || (s != [] && r[0] == s[0]))
  {
    if s == [] || KeyOf(x, k) >= KeyOf(s[0], k) then
      assert ([x] + s)[1..] == s;
      [x] + s
    else
      assert s == [s[0]] + s[1..];
      var t := Insert(x, s[1..], k);
      var r := [s[0]] + t;
      assert r[1..] == t;
      assert multiset(r) == multiset([s[0]]) + multiset(t);
      r
  }

  /**
   * `sort((a, b) => key(b) - key(a))`: descending by key, and stable,
   * since an element is inserted in front of the later equal ones.
   */
  function SortDescending(s: seq<GameScore>, k: SortKey): (r: seq<GameScore>)
    ensures Descending(r, k) && multiset(r) == multiset(s) && |r| == |s|
  {
    if s == [] then []
    else
      assert s == [s[0]] + s[1..];
      Insert(s[0], SortDescending(s[1..], k), k)
  }

  /** A filter followed by a descending sort: what the three score queries compute. */
  function Query(all: seq<GameScore>, q: ScoreQuery, k: SortKey): (r: seq<GameScore>)
    ensures forall i :: 0 <= i < |r| ==> Selects(q, r[i])
    ensures Descending(r, k)
    ensures multiset(r) == multiset(Filter(all, q)) && |r| == |Filter(all, q)|
  {
    var f := Filter(all, q);
    var r := SortDescending(f, k);
    forall i | 0 <= i < |r| ensures Selects(q, r[i]) {
      assert r[i] in multiset(f);
    }
    r
  }

  /** The filtered, sorted scores of one game, cut at `limit`. */
  function HighScores(all: seq<GameScore>, gameType: string, limit: int): (r: seq<GameScore>)
    ensures forall i :: 0 <= i < |r| ==> r[i].gameType == gameType
    ensures Descending(r, ByScore)
    ensures var n := |Query(all, OfGame(gameType), ByScore)|;
      limit >= 0 ==> |r| == (if limit < n then limit else n)
    ensures var n := |Query(all, OfGame(gameType), ByScore)|;
      limit < 0 ==> |r| == (if n + limit > 0 then n + limit else 0)
    ensures r == Query(all, OfGame(gameType), ByScore)[..|r|]
  {
    var sorted := Query(all, OfGame(gameType), ByScore);
    assert forall i :: 0 <= i < |sorted| ==> Selects(OfGame(gameType), sorted[i]);
    var r := Take(sorted, limit);
    assert forall i :: 0 <= i < |r| ==> r[i] == sorted[i];
    DescendingPrefix(sorted, ByScore, |r|);
    r
  }

  /** Descending between neighbours means descending between any two positions. */
  lemma {:induction false} DescendingPairs(s: seq<GameScore>, k: SortKey, i: int, j: int)
    requires Descending(s, k) && 0 <= i <= j < |s|
    ensures KeyOf(s[i], k) >= KeyOf(s[j], k)
    decreases j
  {
    if 0 < i {
      DescendingPairs(s[1..], k, i - 1, j - 1);
    } else if 0 < j {
      DescendingPairs(s[1..], k, 0, j - 1);
    }
  }

  /** A prefix of a descending list is descending. */
  lemma {:induction false} DescendingPrefix(s: seq<GameScore>, k: SortKey, n: nat)
    requires Descending(s, k) && n <= |s|
    ensures Descending(s[..n], k)
  {
    if n >= 2 {
      assert s[..n][1..] == s[1..][..n - 1];
      DescendingPrefix(s[1..], k, n - 1);
    }
  }

  /**
   * `slice(0, limit)`: the first `limit` elements; a negative limit counts
   * from the end.
   */
  function Take(s: seq<GameScore>, limit: int): (r: seq<GameScore>)
    ensures limit >= 0 ==> |r| == if limit < |s| then limit else |s|
    ensures limit < 0 ==> |r| == if |s| + limit > 0 then |s| + limit else 0
    ensures r == s[..|r|]
  {
    var end := if limit < 0 then (if |s| + limit > 0 then |s| + limit else 0)
               else (if limit < |s| then limit else |s|);
    s[..end]
  }

  /** The scores that do not belong to user `id`. */
  function WithoutUser(scores: map<int, GameScore>, id: int): (r: map<int, GameScore>)
    ensures forall k :: k in r ==> r[k].userId != Some(id)
    ensures forall k :: k in scores && scores[k].userId != Some(id) ==> k in r && r[k] == scores[k]
    ensures r.Keys <= scores.Keys
  {
    map k | k in scores && scores[k].userId != Some(id) :: scores[k]
  }

  /** The scores left once the ids in `done` have been looked at and user `id`'s removed. */
  function Remaining(scores: map<int, GameScore>, id: int, done: set<int>): map<int, GameScore> {
    map k | k in scores && (k !in done || scores[k].userId != Some(id)) :: scores[k]
  }

  lemma RemainingStep(scores: map<int, GameScore>, id: int, done: set<int>, x: int)
    requires x in scores && x !in done
    ensures x in Remaining(scores, id, done) && Remaining(scores, id, done)[x] == scores[x]
    ensures Remaining(scores, id, done + {x}) ==
      if scores[x].userId == Some(id) then Remaining(scores, id, done) - {x} else Remaining(scores, id, done)
  {
  }

  lemma RemainingAll(scores: map<int, GameScore>, id: int, done: set<int>)
    requires scores.Keys <= done
    ensures Remaining(scores, id, done) == WithoutUser(scores, id)
  {
  }

  class MemStorage {
    var users: map<int, User>
    var gameScores: map<int, GameScore>
    var currentUserId: int
    var currentScoreId: int

    /** Every stored record sits under its own id, and every id is below its counter. */
    ghost predicate Valid()
      reads this
    {
      1 <= currentUserId && 1 <= currentScoreId &&
      (forall k :: k in users ==> 1 <= k < currentUserId && users[k].id == k) &&
      (forall k :: k in gameScores ==> 1 <= k < currentScoreId && gameScores[k].id == k)
    }

    constructor ()
      ensures users == map[] && gameScores == map[]
      ensures currentUserId == 1 && currentScoreId == 1
      ensures Valid()
    {
      users := map[];
      gameScores := map[];
      currentUserId := 1;
      currentScoreId := 1;
    }

    /** `Array.from(this.users.values())`. */
    function AllUsers(): (r: seq<User>)
      requires Valid()
      reads this
      ensures forall i :: 0 <= i < |r| ==> r[i].id in users && users[r[i].id] == r[i]
      ensures forall i, j :: 0 <= i < j < |r| ==> r[i].id < r[j].id
    {
      Values(users, IdOrder(users.Keys, 1, currentUserId))
    }

    /** `Array.from(this.gameScores.values())`. */
    function AllScores(): (r: seq<GameScore>)
      requires Valid()
      reads this
      ensures forall i :: 0 <= i < |r| ==> r[i].id in gameScores && gameScores[r[i].id] == r[i]
      ensures forall i, j :: 0 <= i < j < |r| ==> r[i].id < r[j].id
    {
      Values(gameScores, IdOrder(gameScores.Keys, 1, currentScoreId))
    }

    /** Every stored user appears in `AllUsers()`. */
    lemma AllUsersComplete(id: int)
      requires Valid() && id in users
      ensures users[id] in AllUsers()
    {
      var ids := IdOrder(users.Keys, 1, currentUserId);
      IdOrderComplete(users.Keys, 1, currentUserId, id);
      var i :| 0 <= i < |ids| && ids[i] == id;
      assert AllUsers()[i] == users[id];
    }

    /** Every stored score appears in `AllScores()`. */
    lemma AllScoresComplete(id: int)
      requires Valid() && id in gameScores
      ensures gameScores[id] in AllScores()
    {
      var ids := IdOrder(gameScores.Keys, 1, currentScoreId);
      IdOrderComplete(gameScores.Keys, 1, currentScoreId, id);
      var i :| 0 <= i < |ids| && ids[i] == id;
      assert AllScores()[i] == gameScores[id];
    }

    /** `getUser(id)`. */
    function GetUser(id: int): (r: Opt<User>)
      reads this
      ensures r.Some? <==> id in users
      ensures r.Some? ==> r.value == users[id]
    {
      if id in users then Some(users[id]) else None
    }

    /** `getUserByEmail(email)`: the matching user with the smallest id. */
    function GetUserByEmail(email: string): (r: Opt<User>)
      requires Valid()
      reads this
      ensures r.Some? ==> r.value.email == email && r.value.id in users && users[r.value.id] == r.value
      ensures r.Some? ==> forall id :: id in users && id < r.value.id ==> users[id].email != email
      ensures r.None? ==> forall id :: id in users ==> users[id].email != email
    {
      FindFirst(ByEmail(email))
    }

    /** `getUserByFirebaseUid(firebaseUid)`: the matching user with the smallest id. */
    function GetUserByFirebaseUid(firebaseUid: string): (r: Opt<User>)
      requires Valid()
      reads this
      ensures r.Some? ==> r.value.firebaseUid == Some(firebaseUid) && r.value.id in users && users[r.value.id] == r.value
      ensures r.Some? ==> forall id :: id in users && id < r.value.id ==> users[id].firebaseUid != Some(firebaseUid)
      ensures r.None? ==> forall id :: id in users ==> users[id].firebaseUid != Some(firebaseUid)
    {
      FindFirst(ByFirebaseUid(firebaseUid))
    }

    function FindFirst(key: UserKey): (r: Opt<User>)
      requires Valid()
      reads this
      ensures r.Some? ==> KeyMatches(r.value, key) && r.value.id in users && users[r.value.id] == r.value
      ensures r.Some? ==> forall id :: id in users && id < r.value.id ==> !KeyMatches(users[id], key)
      ensures r.None? ==> forall id :: id in users ==> !KeyMatches(users[id], key)
    {
      FindNone(key);
      FindSome(key);
      Find(AllUsers(), key)
    }

    lemma FindNone(key: UserKey)
      requires Valid()
      ensures Find(AllUsers(), key).None? ==> forall id :: id in users ==> !KeyMatches(users[id], key)
    {
      if Find(AllUsers(), key).None? {
        forall id | id in users ensures !KeyMatches(users[id], key) {
          AllUsersComplete(id);
        }
      }
    }

    lemma FindSome(key: UserKey)
      requires Valid()
      ensures var r := Find(AllUsers(), key);
        r.Some? ==> forall id :: id in users && id < r.value.id ==> !KeyMatches(users[id], key)
    {
      var all := AllUsers();
      var r := Find(all, key);
      if r.Some? {
        forall id | id in users && id < r.value.id ensures !KeyMatches(users[id], key) {
          AllUsersComplete(id);
          FindIsFirst(all, key, users[id]);
        }
      }
    }

    /** `getUserGameScores(userId)`: the user's scores, newest first. */
    function GetUserGameScores(userId: int): (r: seq<GameScore>)
      requires Valid()
      reads this
      ensures forall i :: 0 <= i < |r| ==> r[i].userId == Some(userId)
      ensures Descending(r, ByCreatedAt)
      ensures multiset(r) == multiset(Filter(AllScores(), OfUser(userId)))
    {
      var r := Query(AllScores(), OfUser(userId), ByCreatedAt);
      assert forall i :: 0 <= i < |r| ==> Selects(OfUser(userId), r[i]);
      r
    }

    /** `getGameHighScores(gameType, limit)`: the best `limit` scores of one game. */
    function GetGameHighScores(gameType: string, limit: int): (r: seq<GameScore>)
      requires Valid()
      reads this
      ensures forall i :: 0 <= i < |r| ==> r[i].gameType == gameType
      ensures Descending(r, ByScore)
      ensures var n := |Query(AllScores(), OfGame(gameType), ByScore)|;
        limit >= 0 ==> |r| == (if limit < n then limit else n)
      ensures var n := |Query(AllScores(), OfGame(gameType), ByScore)|;
        limit < 0 ==> |r| == (if n + limit > 0 then n + limit else 0)
      ensures r == Query(AllScores(), OfGame(gameType), ByScore)[..|r|]
    {
      HighScores(AllScores(), gameType, limit)
    }

    /**
     * The high-score list is the top of the table: a score of the game that
     * did not make the list is no better than any listed one.
     */
    lemma HighScoresAreTop(gameType: string, limit: int, i: int, j: int)
      requires Valid()
      requires var r := GetGameHighScores(gameType, limit); 0 <= i < |r|
      requires |GetGameHighScores(gameType, limit)| <= j < |Query(AllScores(), OfGame(gameType), ByScore)|
      ensures GetGameHighScores(gameType, limit)[i].score >= Query(AllScores(), OfGame(gameType), ByScore)[j].score
    {
      var all := Query(AllScores(), OfGame(gameType), ByScore);
      DescendingPairs(all, ByScore, i, j);
    }

    /** `getUserGameScoresByType(userId, gameType)`: best first. */
    function GetUserGameScoresByType(userId: int, gameType: string): (r: seq<GameScore>)
      requires Valid()
      reads this
      ensures forall i :: 0 <= i < |r| ==> r[i].userId == Some(userId) && r[i].gameType == gameType
      ensures Descending(r, ByScore)
      ensures multiset(r) == multiset(Filter(AllScores(), OfUserAndGame(userId, gameType)))
    {
      var r := Query(AllScores(), OfUserAndGame(userId, gameType), ByScore);
      assert forall i :: 0 <= i < |r| ==> Selects(OfUserAndGame(userId, gameType), r[i]);
      r
    }

    /** `createUser(insertUser)`, `now` being `new Date()`. */
    method CreateUser(insertUser: InsertUser, now: int) returns (user: User)
      requires Valid()
      modifies this
      ensures Valid()
      ensures user.id == old(currentUserId) && currentUserId == old(currentUserId) + 1
      ensures user.id !in old(users) && forall id :: id in old(users) ==> id < user.id
      ensures user == User(user.id, insertUser.email, insertUser.password, insertUser.firstName,
                           insertUser.lastName, insertUser.phone, insertUser.avatar,
                           insertUser.firebaseUid, now)
      ensures users == old(users)[user.id := user]
      ensures GetUser(user.id) == Some(user)
      ensures gameScores == old(gameScores) && currentScoreId == old(currentScoreId)
    {
      var id := currentUserId;
      currentUserId := currentUserId + 1;
      user := User(id, insertUser.email, insertUser.password, insertUser.firstName,
                   insertUser.lastName, insertUser.phone, insertUser.avatar,
                   insertUser.firebaseUid, now);
      users := users[id := user];
    }

    /** `updateUser(id, updates)`. */
    method UpdateUser(id: int, updates: UserUpdate) returns (r: Opt<User>)
      requires Valid()
      modifies this
      ensures Valid()
      ensures id !in old(users) ==> r == None && users == old(users)
      ensures id in old(users) ==>
        r == Some(Merge(old(users[id]), updates)) && users == old(users)[id := r.value]
      ensures gameScores == old(gameScores)
      ensures currentUserId == old(currentUserId) && currentScoreId == old(currentScoreId)
    {
      if id !in users {
        return None;
      }
      var existingUser := users[id];
      var updatedUser := Merge(existingUser, updates);
      users := users[id := updatedUser];
      return Some(updatedUser);
    }

    /** `deleteUser(id)`: the user and, if it existed, all of its scores go. */
    method DeleteUser(id: int) returns (deleted: bool)
      requires Valid()
      modifies this
      ensures Valid()
      ensures deleted <==> id in old(users)
      ensures users == old(users) - {id}
      ensures !deleted ==> gameScores == old(gameScores)
      ensures deleted ==> gameScores == WithoutUser(old(gameScores), id)
      ensures currentUserId == old(currentUserId) && currentScoreId == old(currentScoreId)
    {
      deleted := id in users;
      users := users - {id};
      if deleted {
        var entries := IdOrder(gameScores.Keys, 1, currentScoreId);
        ghost var before := gameScores;
        ghost var done: set<int> := {};
        for i := 0 to |entries|
          invariant gameScores == Remaining(before, id, done)
          invariant forall k :: k in done ==> i < |entries| ==> k < entries[i]
          invariant forall j :: 0 <= j < i ==> entries[j] in done
          invariant users == old(users) - {id}
          invariant currentUserId == old(currentUserId) && currentScoreId == old(currentScoreId)
        {
          var scoreId := entries[i];
          RemainingStep(before, id, done, scoreId);
          if gameScores[scoreId].userId == Some(id) {
            gameScores := gameScores - {scoreId};
          }
          done := done + {scoreId};
        }
        forall k | k in before
          ensures k in done
        {
          IdOrderComplete(before.Keys, 1, currentScoreId, k);
        }
        RemainingAll(before, id, done);
      }
    }

    /** `createGameScore(insertScore)`, `now` being `new Date()`. */
    method CreateGameScore(insertScore: InsertGameScore, now: int) returns (score: GameScore)
      requires Valid()
      modifies this
      ensures Valid()
      ensures score.id == old(currentScoreId) && currentScoreId == old(currentScoreId) + 1
      ensures score.id !in old(gameScores) && forall id :: id in old(gameScores) ==> id < score.id
      ensures score == GameScore(score.id, insertScore.userId, insertScore.gameType, insertScore.score, now)
      ensures gameScores == old(gameScores)[score.id := score]
      ensures users == old(users) && currentUserId == old(currentUserId)
    {
      var id := currentScoreId;
      currentScoreId := currentScoreId + 1;
      score := GameScore(id, insertScore.userId, insertScore.gameType, insertScore.score, now);
      gameScores := gameScores[id := score];
    }
  }
}
