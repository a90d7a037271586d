/** The server's in-memory store (server/storage.ts): users in a map keyed by
    an increasing id counter, and the breathing-exercise catalog seeded once
    at construction. The record shapes come from shared/schema.ts. */
module Storage {
  import opened Wrappers
  import opened Find

  /** A JavaScript `Map`: its entries and the order in which keys were first
      inserted, which is the order `values()` iterates in. */
  datatype JsMap<K, V> = JsMap(order: seq<K>, entries: map<K, V>)

  /** Each key is listed once, and exactly the keys of the entries are listed. */
  ghost predicate WellFormed<K(!new), V>(m: JsMap<K, V>)
  {
    && (forall i, j :: 0 <= i < j < |m.order| ==> m.order[i] != m.order[j])
    && (forall k :: k in m.entries <==> k in m.order)
  }

  function EmptyMap<K(!new), V>(): (m: JsMap<K, V>)
    ensures WellFormed(m)
    ensures forall k :: k !in m.entries
  {
    JsMap([], map[])
  }

  /** `map.get(key)`. */
  function Get<K, V>(m: JsMap<K, V>, k: K): (r: Option<V>)
    ensures r.Some? <==> k in m.entries
    ensures r.Some? ==> r.value == m.entries[k]
  {
    if k in m.entries then Some(m.entries[k]) else None
  }

  /** `map.set(key, value)`: a new key goes to the end of the iteration
      order, an existing one keeps its place and takes the new value. */
  function Set<K(!new), V>(m: JsMap<K, V>, k: K, v: V): (r: JsMap<K, V>)
    requires WellFormed(m)
    ensures WellFormed(r)
    ensures Get(r, k) == Some(v)
    ensures forall k' :: k' != k ==> Get(r, k') == Get(m, k')
    ensures k !in m.entries ==> r.order == m.order + [k]
    ensures k in m.entries ==> r.order == m.order
  {
    var order := if k in m.entries then m.order else m.order + [k];
    JsMap(order, m.entries[k := v])
  }

  /** `Array.from(map.values())`: the values in insertion order. */
  function Values<K(!new), V>(m: JsMap<K, V>): (vs: seq<V>)
    requires WellFormed(m)
    ensures |vs| == |m.order|
    ensures forall i :: 0 <= i < |vs| ==> m.order[i] in m.entries && vs[i] == m.entries[m.order[i]]
  {
    seq(|m.order|, i requires 0 <= i < |m.order| => m.entries[m.order[i]])
  }

  datatype User = User(id: int, username: string, password: string)

  /** The fields a caller supplies to create a user. */
  datatype InsertUser = InsertUser(username: string, password: string)

  datatype Steps = Steps(inhale: int, hold1: int, exhale: int, hold2: int)

  datatype Exercise = Exercise(id: string, name: string, description: string, colorTheme: string, steps: Steps)

  datatype MemStorage = MemStorage(users: JsMap<int, User>, exercises: JsMap<string, Exercise>, currentId: int)

  /** The four exercises the store is seeded with, in seed order. */
  const SeedExercises: seq<Exercise> := [
    Exercise("box-breathing", "Box Breathing", "Inhale, Hold, Exhale, Hold", "primary", Steps(4, 4, 4, 4)),
    Exercise("4-7-8", "4-7-8 Technique", "Relaxation breath", "secondary", Steps(4, 7, 8, 0)),
    Exercise("deep-calm", "Deep Calm", "Stress relief breathing", "accent", Steps(6, 2, 7, 0)),
    Exercise("energizing", "Energizing Breath", "Morning activation", "success", Steps(2, 0, 2, 0))
  ]

  /** `exercises.forEach(e => map.set(e.id, e))`. */
  function SetAll(m: JsMap<string, Exercise>, xs: seq<Exercise>): (r: JsMap<string, Exercise>)
    requires WellFormed(m)
    ensures WellFormed(r)
    decreases |xs|
  {
    if xs == [] then m else SetAll(Set(m, xs[0].id, xs[0]), xs[1..])
  }

  /** `initializeExercises`: file every seed exercise under its id. */
  function InitializeExercises(m: JsMap<string, Exercise>): (r: JsMap<string, Exercise>)
    requires WellFormed(m)
    ensures WellFormed(r)
    ensures forall i :: 0 <= i < |SeedExercises| ==> Get(r, SeedExercises[i].id) == Some(SeedExercises[i])
    ensures forall k :: (forall i :: 0 <= i < |SeedExercises| ==> SeedExercises[i].id != k) ==> Get(r, k) == Get(m, k)
  {
    SeedFound(m);
    forall k | forall i :: 0 <= i < |SeedExercises| ==> SeedExercises[i].id != k
      ensures Get(SetAll(m, SeedExercises), k) == Get(m, k)
    {
      SetAllFrame(m, SeedExercises, k);
    }
    SetAll(m, SeedExercises)
  }

  /** After seeding, every seed exercise is found under its id. */
  lemma SeedFound(m: JsMap<string, Exercise>)
    requires WellFormed(m)
    ensures forall i :: 0 <= i < |SeedExercises| ==> Get(SetAll(m, SeedExercises), SeedExercises[i].id) == Some(SeedExercises[i])
  {
    var xs := SeedExercises;
    SeedAllUnfolds(m);
    var m1 := Set(m, xs[0].id, xs[0]);
    var m2 := Set(m1, xs[1].id, xs[1]);
    var m3 := Set(m2, xs[2].id, xs[2]);
    SeedIdsDistinct();
    assert Get(m3, xs[2].id) == Some(xs[2]);
    assert Get(m3, xs[1].id) == Get(m2, xs[1].id) == Some(xs[1]);
    assert Get(m3, xs[0].id) == Get(m2, xs[0].id) == Get(m1, xs[0].id) == Some(xs[0]);
  }

  /** Filing a list of exercises leaves every key none of them carries as
      it was. */
  lemma {:induction false} SetAllFrame(m: JsMap<string, Exercise>, xs: seq<Exercise>, k: string)
    requires WellFormed(m)
    requires forall i :: 0 <= i < |xs| ==> xs[i].id != k
    ensures Get(SetAll(m, xs), k) == Get(m, k)
    decreases |xs|
  {
    if xs != [] {
      SetAllFrame(Set(m, xs[0].id, xs[0]), xs[1..], k);
    }
  }

  /** The seed exercises carry pairwise different ids. */
  lemma SeedIdsDistinct()
    ensures forall i, j :: 0 <= i < j < |SeedExercises| ==> SeedExercises[i].id != SeedExercises[j].id
  {
    var xs := SeedExercises;
    assert xs[0].id[0] == 'b' && xs[1].id[0] == '4' && xs[2].id[0] == 'd' && xs[3].id[0] == 'e';
  }

  /** Seeding is four `set` calls in seed order. */
  lemma SeedAllUnfolds(m: JsMap<string, Exercise>)
    requires WellFormed(m)
    ensures var xs := SeedExercises;
      SetAll(m, xs) == Set(Set(Set(Set(m, xs[0].id, xs[0]), xs[1].id, xs[1]), xs[2].id, xs[2]), xs[3].id, xs[3])
  {
    SetAllFour(m, SeedExercises);
  }

  lemma SetAllFour(m: JsMap<string, Exercise>, xs: seq<Exercise>)
    requires WellFormed(m) && |xs| == 4
    ensures SetAll(m, xs) == Set(Set(Set(Set(m, xs[0].id, xs[0]), xs[1].id, xs[1]), xs[2].id, xs[2]), xs[3].id, xs[3])
  {
    var m1 := Set(m, xs[0].id, xs[0]);
    var m2 := Set(m1, xs[1].id, xs[1]);
    var m3 := Set(m2, xs[2].id, xs[2]);
    var m4 := Set(m3, xs[3].id, xs[3]);
    assert SetAll(m4, xs[4..]) == m4;
    assert SetAll(m3, xs[3..]) == m4 by { assert xs[3..][1..] == xs[4..]; }
    assert SetAll(m2, xs[2..]) == m4 by { assert xs[2..][1..] == xs[3..]; }
    assert SetAll(m1, xs[1..]) == m4 by { assert xs[1..][1..] == xs[2..]; }
  }

  /** The catalog as the constructor leaves it. */
  const Catalog: JsMap<string, Exercise> := JsMap(
    [SeedExercises[0].id, SeedExercises[1].id, SeedExercises[2].id, SeedExercises[3].id],
    map[SeedExercises[0].id := SeedExercises[0], SeedExercises[1].id := SeedExercises[1],
        SeedExercises[2].id := SeedExercises[2], SeedExercises[3].id := SeedExercises[3]])

  /** The catalog lists the seed exercises in seed order and finds each one
      under its id, and nothing else. */
  lemma CatalogContents()
    ensures WellFormed(Catalog)
    ensures Values(Catalog) == SeedExercises
    ensures forall i :: 0 <= i < |SeedExercises| ==> Get(Catalog, SeedExercises[i].id) == Some(SeedExercises[i])
    ensures forall id :: (forall i :: 0 <= i < |SeedExercises| ==> SeedExercises[i].id != id) ==> Get(Catalog, id) == None
  {
    assert WellFormed(Catalog);
    var vs := Values(Catalog);
    assert vs[0] == SeedExercises[0] && vs[1] == SeedExercises[1];
    assert vs[2] == SeedExercises[2] && vs[3] == SeedExercises[3];
  }

  /** Seeding an empty map files each exercise under its id, in seed order. */
  lemma SeedingInOrder()
    ensures InitializeExercises(EmptyMap()) == Catalog
  {
    var xs := SeedExercises;
    var m0: JsMap<string, Exercise> := EmptyMap();
    var m1 := JsMap([xs[0].id], map[xs[0].id := xs[0]]);
    var m2 := JsMap([xs[0].id, xs[1].id], m1.entries[xs[1].id := xs[1]]);
    var m3 := JsMap([xs[0].id, xs[1].id, xs[2].id], m2.entries[xs[2].id := xs[2]]);
    var m4 := JsMap([xs[0].id, xs[1].id, xs[2].id, xs[3].id], m3.entries[xs[3].id := xs[3]]);
    assert Set(m0, xs[0].id, xs[0]) == m1;
    assert WellFormed(m1);
    assert Set(m1, xs[1].id, xs[1]) == m2;
    assert WellFormed(m2);
    assert Set(m2, xs[2].id, xs[2]) == m3;
    assert WellFormed(m3);
    assert Set(m3, xs[3].id, xs[3]) == m4;
    assert WellFormed(m4);
    assert SetAll(m4, xs[4..]) == m4;
    assert SetAll(m3, xs[3..]) == m4 by { assert xs[3..][1..] == xs[4..]; }
    assert SetAll(m2, xs[2..]) == m4 by { assert xs[2..][1..] == xs[3..]; }
    assert SetAll(m1, xs[1..]) == m4 by { assert xs[1..][1..] == xs[2..]; }
    assert SetAll(m0, xs) == m4;
  }

  /** What every store reachable from the constructor satisfies: user ids
      are listed in strictly increasing insertion order, each lies in
      `[1, currentId)`, each user is filed under its own id, and the catalog
      is the seeded one. */
  ghost predicate Inv(s: MemStorage)
  {
    && WellFormed(s.users)
    && s.currentId >= 1
    && (forall i :: 0 <= i < |s.users.order| ==> 1 <= s.users.order[i] < s.currentId)
    && (forall i, j :: 0 <= i < j < |s.users.order| ==> s.users.order[i] < s.users.order[j])
    && (forall k :: k in s.users.entries ==> s.users.entries[k].id == k)
    && Seeded(s)
  }

  /** The catalog is the one built at construction. */
  predicate Seeded(s: MemStorage)
  {
    s.exercises == Catalog
  }

  /** The constructor: no users, counter at 1, catalog seeded. */
  function New(): (s: MemStorage)
    ensures Inv(s)
    ensures s.currentId == 1
    ensures forall id :: GetUser(s, id) == None
  {
    SeedingInOrder();
    CatalogContents();
    MemStorage(EmptyMap(), InitializeExercises(EmptyMap()), 1)
  }

  /** `getUser`: the user filed under `id`, which carries that id. */
  function GetUser(s: MemStorage, id: int): (r: Option<User>)
    requires Inv(s)
    ensures r.Some? <==> id in s.users.entries
    ensures r.Some? ==> r.value == s.users.entries[id]
    ensures r.Some? ==> r.value.id == id
  {
    Get(s.users, id)
  }

  /** `getUserByUsername`: the earliest-inserted user with that name, which
      is also the one with the smallest id; none when nobody has it. */
  function GetUserByUsername(s: MemStorage, username: string): (r: Option<User>)
    requires Inv(s)
    ensures r.None? <==> forall id :: id in s.users.entries ==> s.users.entries[id].username != username
    ensures r.Some? ==>
      && r.value.id in s.users.entries
      && s.users.entries[r.value.id] == r.value
      && r.value.username == username
      && forall id :: id in s.users.entries && s.users.entries[id].username == username ==> r.value.id <= id
  {
    var us := Values(s.users);
    var i := First(us, (u: User) => u.username == username);
    if i.Some? then
      var found := us[i.value];
      assert found.id == s.users.order[i.value];
      assert forall id :: id in s.users.entries && s.users.entries[id].username == username ==> found.id <= id by {
        forall id | id in s.users.entries && s.users.entries[id].username == username
          ensures found.id <= id
        {
          var j :| 0 <= j < |s.users.order| && s.users.order[j] == id;
          assert us[j].username == username;
        }
      }
      Some(found)
    else
      assert forall id :: id in s.users.entries ==> s.users.entries[id].username != username by {
        forall id | id in s.users.entries
          ensures s.users.entries[id].username != username
        {
          var j :| 0 <= j < |s.users.order| && s.users.order[j] == id;
          assert us[j] == s.users.entries[id];
        }
      }
      None
  }

  /** The result of `createUser`: the store afterwards and the new user. */
  datatype Created = Created(store: MemStorage, user: User)

  /** `createUser`: the new user takes the current counter value as its id,
      the counter goes up by one, the user can be looked up under its id and
      no other lookup changes. Duplicate usernames are not rejected. */
  function CreateUser(s: MemStorage, ins: InsertUser): (r: Created)
    requires Inv(s)
    ensures Inv(r.store)
    ensures r.user == User(s.currentId, ins.username, ins.password)
    ensures r.store.currentId == s.currentId + 1
    ensures GetUser(r.store, r.user.id) == Some(r.user)
    ensures forall id :: id != r.user.id ==> GetUser(r.store, id) == GetUser(s, id)
    ensures Values(r.store.users) == Values(s.users) + [r.user]
    ensures r.store.exercises == s.exercises
  {
    var id := s.currentId;
    var user := User(id, ins.username, ins.password);
    assert id !in s.users.entries;
    var users := Set(s.users, id, user);
    var s' := MemStorage(users, s.exercises, s.currentId + 1);
    assert Values(users) == Values(s.users) + [user];
    Created(s', user)
  }

  function GetAllExercises(s: MemStorage): (xs: seq<Exercise>)
    requires Inv(s)
    ensures xs == SeedExercises
  {
    CatalogContents();
    Values(s.exercises)
  }

  function GetExerciseById(s: MemStorage, id: string): (r: Option<Exercise>)
    requires Inv(s)
    ensures forall i :: 0 <= i < |SeedExercises| && SeedExercises[i].id == id ==> r == Some(SeedExercises[i])
    ensures (forall i :: 0 <= i < |SeedExercises| ==> SeedExercises[i].id != id) ==> r == None
  {
    CatalogContents();
    Get(s.exercises, id)
  }

  /** Creating users one after another. */
  function CreateAll(s: MemStorage, ins: seq<InsertUser>): (r: (MemStorage, seq<User>))
    requires Inv(s)
    ensures Inv(r.0)
    ensures |r.1| == |ins|
    decreases |ins|
  {
    if ins == [] then (s, [])
    else
      var c := CreateUser(s, ins[0]);
      var rest := CreateAll(c.store, ins[1..]);
      (rest.0, [c.user] + rest.1)
  }

  /** Ids are handed out consecutively from the counter. */
  lemma {:induction false} CreateAllIds(s: MemStorage, ins: seq<InsertUser>)
    requires Inv(s)
    ensures forall i :: 0 <= i < |ins| ==> CreateAll(s, ins).1[i].id == s.currentId + i
    ensures CreateAll(s, ins).0.currentId == s.currentId + |ins|
    decreases |ins|
  {
    if ins != [] {
      var c := CreateUser(s, ins[0]);
      var rest := CreateAll(c.store, ins[1..]);
      assert c.user.id == s.currentId && c.store.currentId == s.currentId + 1;
      CreateAllIds(c.store, ins[1..]);
      var users := CreateAll(s, ins).1;
      assert users == [c.user] + rest.1;
      forall i | 0 <= i < |ins|
        ensures users[i].id == s.currentId + i
      {
        if i > 0 {
          assert users[i] == rest.1[i - 1];
        }
      }
    }
  }

  /** From a fresh store, the ids issued are 1, 2, 3, ...: they start at 1 and
      are strictly increasing, hence pairwise distinct. */
  lemma IssuedIds(ins: seq<InsertUser>)
    ensures var users := CreateAll(New(), ins).1;
      && (forall i :: 0 <= i < |users| ==> users[i].id == i + 1)
      && (forall i, j :: 0 <= i < j < |users| ==> users[i].id < users[j].id)
  {
    CreateAllIds(New(), ins);
  }

  /** Two users may share a username; the lookup by name finds the first. */
  lemma DuplicateUsernames(name: string, pw1: string, pw2: string)
    ensures var a := CreateUser(New(), InsertUser(name, pw1));
      var b := CreateUser(a.store, InsertUser(name, pw2));
      && GetUser(b.store, 1) == Some(User(1, name, pw1))
      && GetUser(b.store, 2) == Some(User(2, name, pw2))
      && GetUserByUsername(b.store, name) == Some(User(1, name, pw1))
  {
    var a := CreateUser(New(), InsertUser(name, pw1));
    var b := CreateUser(a.store, InsertUser(name, pw2));
    var r := GetUserByUsername(b.store, name);
    assert 1 in b.store.users.entries;
  }
}
