/**
 * The credential pool: per service name, an ordered list of interchangeable
 * API keys and a rotation cursor. Keys are handed out round-robin; keys can
 * be added (no duplicates) and removed (every exact match); each mutation
 * writes the whole key map to the key file.
 *
 * `Pool` and the step functions below are the pool's meaning; the class
 * `ApiKeyPool` is the object the bot shares, whose methods update its fields
 * in place and are proved to follow the step functions.
 */
module ApiKeys {
  import opened Wrappers

  // ---------------------------------------------------------------------
  // Loading the key file

  /** A value of the key file's JSON object. */
  datatype KeyValue = KeyString(key: string) | KeyArray(keys: seq<string>) | OtherValue

  /** The key file as read at start-up: absent, not valid JSON, or a JSON object. */
  datatype KeyFile = Missing | Unparsable | Parsed(entries: map<string, KeyValue>)

  /**
   * `loadKeys`: a legacy single-string entry becomes a one-element list, a
   * list is kept as it is, any other value is ignored; every loaded service
   * starts with cursor 0. A missing or unreadable file yields an empty pool.
   */
  method LoadEntries(file: KeyFile) returns (keys: map<string, seq<string>>, cursors: map<string, nat>)
    ensures !file.Parsed? ==> keys == map[] && cursors == map[]
    ensures file.Parsed? ==>
      forall s :: s in keys <==> s in file.entries && !file.entries[s].OtherValue?
    ensures file.Parsed? ==>
      forall s :: s in file.entries && file.entries[s].KeyString? ==> keys[s] == [file.entries[s].key]
    ensures file.Parsed? ==>
      forall s :: s in file.entries && file.entries[s].KeyArray? ==> keys[s] == file.entries[s].keys
    ensures cursors.Keys == keys.Keys
    ensures forall s :: s in cursors ==> cursors[s] == 0
  {
    keys, cursors := map[], map[];
    if file.Parsed? {
      var entries := file.entries;
      var pending := entries.Keys;
      while pending != {}
        invariant pending <= entries.Keys
        invariant forall s :: s in keys <==> s in entries && s !in pending && !entries[s].OtherValue?
        invariant forall s :: s in keys && entries[s].KeyString? ==> keys[s] == [entries[s].key]
        invariant forall s :: s in keys && entries[s].KeyArray? ==> keys[s] == entries[s].keys
        decreases pending
      {
        var service :| service in pending;
        match entries[service] {
          case KeyString(k) => keys := keys[service := [k]];
          case KeyArray(ks) => keys := keys[service := ks];
          case OtherValue =>
        }
        pending := pending - {service};
      }
      var services := keys.Keys;
      while services != {}
        invariant services <= keys.Keys
        invariant cursors.Keys == keys.Keys - services
        invariant forall s :: s in cursors ==> cursors[s] == 0
        decreases services
      {
        var service :| service in services;
        cursors := cursors[service := 0];
        services := services - {service};
      }
    }
  }

  // ---------------------------------------------------------------------
  // The pool as a value

  datatype Pool = Pool(keys: map<string, seq<string>>, cursors: map<string, nat>)

  /** `currentKeyIndices[service] || 0`: a service without a cursor reads as cursor 0. */
  function CursorOf(p: Pool, service: string): nat {
    if service in p.cursors then p.cursors[service] else 0
  }

  /** Every stored cursor belongs to a known service and is below its list length, or is 0. */
  predicate Consistent(p: Pool) {
    forall s :: s in p.cursors ==>
      s in p.keys && (p.cursors[s] < |p.keys[s]| || p.cursors[s] == 0)
  }

  /** `getKeyCount`: 0 for an unknown service, else the length of its list. */
  function KeyCount(p: Pool, service: string): (n: nat)
    ensures Consistent(p) ==> (n == 0 <==> Draw(p, service).0.None?)
  {
    if service in p.keys then |p.keys[service]| else 0
  }

  /**
   * `getKey`: no key and no change for an unknown service or an empty list;
   * otherwise the key under the cursor, and the cursor moves one step with
   * wrap-around.
   */
  function Draw(p: Pool, service: string): (r: (Option<string>, Pool))
    requires Consistent(p)
    ensures Consistent(r.1) && r.1.keys == p.keys
    ensures r.0.None? <==> service !in p.keys || p.keys[service] == []
    ensures r.0.None? ==> r.1 == p
    ensures r.0.Some? ==>
      && r.0.value == p.keys[service][CursorOf(p, service)]
      && CursorOf(r.1, service) == (CursorOf(p, service) + 1) % |p.keys[service]|
    ensures forall t :: t != service ==> CursorOf(r.1, t) == CursorOf(p, t)
  {
    if service !in p.keys || |p.keys[service]| == 0 then (None, p)
    else
      var c := CursorOf(p, service);
      (Some(p.keys[service][c]), Pool(p.keys, p.cursors[service := (c + 1) % |p.keys[service]|]))
  }

  /**
   * `addKey`: an unknown service first gets an empty list; the key is
   * appended unless it is already there. The flag says whether it was.
   */
  function Add(p: Pool, service: string, key: string): (r: (bool, Pool))
    ensures r.0 <==> !(service in p.keys && key in p.keys[service])
    ensures !r.0 ==> r.1 == p
    ensures r.0 ==> r.1.keys == p.keys[service := (if service in p.keys then p.keys[service] else []) + [key]]
    ensures r.1.cursors == p.cursors
    ensures service in r.1.keys && key in r.1.keys[service]
    ensures Consistent(p) ==> Consistent(r.1)
  {
    var list := if service in p.keys then p.keys[service] else [];
    if key in list then (false, p)
    else (true, Pool(p.keys[service := list + [key]], p.cursors))
  }

  /** `keys.filter(k => k !== key)`. */
  function Without(keys: seq<string>, key: string): (r: seq<string>)
    ensures forall x :: x in r <==> x in keys && x != key
    ensures multiset(r) == multiset(keys)[key := 0]
    ensures |r| < |keys| <==> key in keys
    ensures key !in keys ==> r == keys
    decreases |keys|
  {
    if |keys| == 0 then []
    else
      var rest := Without(keys[1..], key);
      assert keys == [keys[0]] + keys[1..];
      assert multiset(keys) == multiset([keys[0]]) + multiset(keys[1..]);
      if keys[0] == key then rest else [keys[0]] + rest
  }

  /** Filtering a list keeps or drops its head and filters its tail. */
  lemma WithoutCons(x: string, rest: seq<string>, key: string)
    ensures Without([x] + rest, key) == (if x == key then [] else [x]) + Without(rest, key)
  {
    assert ([x] + rest)[1..] == rest;
  }

  /** Filtering keeps the relative order of what it keeps: it distributes over concatenation. */
  lemma {:induction false} WithoutKeepsOrder(a: seq<string>, b: seq<string>, key: string)
    ensures Without(a + b, key) == Without(a, key) + Without(b, key)
    decreases |a|
  {
    if |a| > 0 {
      var head := if a[0] == key then [] else [a[0]];
      var t := a[1..];
      assert a == [a[0]] + t;
      assert a + b == [a[0]] + (t + b);
      WithoutCons(a[0], t + b, key);
      WithoutCons(a[0], t, key);
      WithoutKeepsOrder(t, b, key);
      assert head + (Without(t, key) + Without(b, key)) == (head + Without(t, key)) + Without(b, key);
    } else {
      assert a + b == b;
    }
  }

  /**
   * `removeKey`: false for an unknown service; otherwise every exact match
   * is dropped, and when the list got shorter a cursor that now points at or
   * past the end is reset to 0. The flag says whether the list got shorter.
   */
  function Remove(p: Pool, service: string, key: string): (r: (bool, Pool))
    ensures r.0 <==> service in p.keys && key in p.keys[service]
    ensures !r.0 ==> r.1 == p
    ensures r.0 ==> r.1.keys == p.keys[service := Without(p.keys[service], key)]
    ensures service in p.keys ==> key !in r.1.keys[service]
    ensures forall t :: t != service ==> CursorOf(r.1, t) == CursorOf(p, t)
    ensures Consistent(p) ==> Consistent(r.1)
    ensures Consistent(p) && r.0 && r.1.keys[service] == [] ==> CursorOf(r.1, service) == 0
    ensures r.0 ==> (service in r.1.cursors <==> service in p.cursors)
    ensures r.0 ==>
      CursorOf(r.1, service) == (if CursorOf(p, service) >= |Without(p.keys[service], key)| then 0
                                 else CursorOf(p, service))
  {
    if service !in p.keys then (false, p)
    else
      var before := p.keys[service];
      var after := Without(before, key);
      if |after| < |before| then
        var cursors := if service in p.cursors && p.cursors[service] >= |after|
                       then p.cursors[service := 0] else p.cursors;
        (true, Pool(p.keys[service := after], cursors))
      else
        assert p.keys[service := after] == p.keys;
        (false, Pool(p.keys[service := after], p.cursors))
  }

  // ---------------------------------------------------------------------
  // Round-robin rotation

  /** The keys returned by `n` consecutive `getKey` calls for one service. */
  function DrawMany(p: Pool, service: string, n: nat): (keys: seq<Option<string>>)
    requires Consistent(p)
    ensures |keys| == n
    decreases n
  {
    if n == 0 then []
    else
      var r := Draw(p, service);
      [r.0] + DrawMany(r.1, service, n - 1)
  }

  /** The pool that `n` consecutive `getKey` calls for one service leave: same lists, cursor moved on. */
  function DrawnPool(p: Pool, service: string, n: nat): (q: Pool)
    requires Consistent(p)
    ensures Consistent(q) && q.keys == p.keys
    decreases n
  {
    if n == 0 then p else DrawnPool(Draw(p, service).1, service, n - 1)
  }

  /** Call n + 1 hands out the key of the pool the first n calls leave, and moves it on by one draw. */
  lemma {:induction false} DrawAfter(p: Pool, service: string, n: nat)
    requires Consistent(p)
    ensures DrawMany(p, service, n + 1)[n] == Draw(DrawnPool(p, service, n), service).0
    ensures DrawnPool(p, service, n + 1) == Draw(DrawnPool(p, service, n), service).1
    decreases n
  {
    if n > 0 {
      var r := Draw(p, service);
      var rest := DrawMany(r.1, service, n);
      DrawAfter(r.1, service, n - 1);
      assert DrawnPool(p, service, n) == DrawnPool(r.1, service, n - 1);
      assert DrawnPool(p, service, n + 1) == DrawnPool(r.1, service, n);
      assert DrawMany(p, service, n + 1) == [r.0] + rest;
      assert DrawMany(p, service, n + 1)[n] == rest[n - 1];
    }
  }

  lemma MulAtLeast(k: nat, m: nat)
    requires k >= 1
    ensures k * m >= m
  {
    assert k * m == (k - 1) * m + m;
  }

  lemma ModUnique(x: nat, m: nat, q: nat, r: nat)
    requires 0 <= r < m && x == q * m + r
    ensures x % m == r
  {
    var q', r' := x / m, x % m;
    assert x == q' * m + r';
    if q < q' {
      assert (q' - q) * m == q' * m - q * m;
      MulAtLeast(q' - q, m);
    } else if q' < q {
      assert (q - q') * m == q * m - q' * m;
      MulAtLeast(q - q', m);
    }
  }

  /** One step of the cursor followed by `j` more lands where `j + 1` steps would. */
  lemma StepMod(c: nat, m: nat, j: nat)
    requires c < m
    ensures ((c + 1) % m + j) % m == (c + 1 + j) % m
  {
    if c + 1 == m {
      ModUnique(m, m, 1, 0);
      var q, r := j / m, j % m;
      assert j == q * m + r;
      assert (q + 1) * m == q * m + m;
      ModUnique(m + j, m, q + 1, r);
    } else {
      ModUnique(c + 1, m, 0, c + 1);
    }
  }

  /** Consecutive calls return the keys from the cursor on, one position further each time, wrapping around. */
  lemma {:induction false} RoundRobin(p: Pool, service: string, n: nat)
    requires Consistent(p) && service in p.keys && |p.keys[service]| > 0
    ensures forall i :: 0 <= i < n ==>
      DrawMany(p, service, n)[i] == Some(p.keys[service][(CursorOf(p, service) + i) % |p.keys[service]|])
    decreases n
  {
    if n > 0 {
      var r := Draw(p, service);
      var list, c := p.keys[service], CursorOf(p, service);
      var m := |list|;
      var rest := DrawMany(r.1, service, n - 1);
      assert DrawMany(p, service, n) == [r.0] + rest;
      RoundRobin(r.1, service, n - 1);
      assert CursorOf(r.1, service) == (c + 1) % m;
      forall i | 0 <= i < n
        ensures DrawMany(p, service, n)[i] == Some(list[(c + i) % m])
      {
        if i == 0 {
          ModUnique(c, m, 0, c);
        } else {
          assert DrawMany(p, service, n)[i] == rest[i - 1];
          assert rest[i - 1] == Some(list[((c + 1) % m + (i - 1)) % m]);
          StepMod(c, m, i - 1);
        }
      }
    }
  }

  /**
   * From cursor 0, as many calls as there are keys return every key once,
   * in insertion order, and the next call starts over with the first key.
   */
  lemma FullRotation(p: Pool, service: string)
    requires Consistent(p) && service in p.keys && |p.keys[service]| > 0
    requires CursorOf(p, service) == 0
    ensures var keys := p.keys[service];
      && (forall i :: 0 <= i < |keys| ==> DrawMany(p, service, |keys| + 1)[i] == Some(keys[i]))
      && DrawMany(p, service, |keys| + 1)[|keys|] == Some(keys[0])
  {
    var keys := p.keys[service];
    var m := |keys|;
    var drawn := DrawMany(p, service, m + 1);
    forall i | 0 <= i < m
      ensures drawn[i] == Some(keys[i])
    {
      DrawnFromStart(p, service, m + 1, i, i);
    }
    DrawnFromStart(p, service, m + 1, m, 0);
  }

  /** From a fresh cursor, the i-th draw hands out the key at i modulo the number of keys. */
  lemma DrawnFromStart(p: Pool, service: string, n: nat, i: nat, k: nat)
    requires Consistent(p) && service in p.keys && |p.keys[service]| > 0
    requires CursorOf(p, service) == 0 && i < n
    requires k < |p.keys[service]| && (i == k || i == k + |p.keys[service]|)
    ensures DrawMany(p, service, n)[i] == Some(p.keys[service][k])
  {
    var m := |p.keys[service]|;
    RoundRobin(p, service, n);
    assert DrawMany(p, service, n)[i] == Some(p.keys[service][(CursorOf(p, service) + i) % m]);
    if i == k {
      assert i == 0 * m + k;
      ModUnique(i, m, 0, k);
    } else {
      assert i == 1 * m + k;
      ModUnique(i, m, 1, k);
    }
  }

  // ---------------------------------------------------------------------
  // The shared pool object

  class ApiKeyPool {
    var keys: map<string, seq<string>>
    var cursors: map<string, nat>
    /** Every write of the whole key map to the key file, oldest first. */
    var saves: seq<map<string, seq<string>>>

    function State(): Pool
      reads this
    {
      Pool(keys, cursors)
    }

    ghost predicate Valid()
      reads this
    {
      Consistent(State())
    }

    /** Construction loads the key file. */
    constructor (file: KeyFile)
      ensures Valid() && saves == []
      ensures !file.Parsed? ==> keys == map[]
      ensures file.Parsed? ==> keys.Keys == set s | s in file.entries && !file.entries[s].OtherValue?
      ensures file.Parsed? ==>
        forall s :: s in file.entries && file.entries[s].KeyString? ==> keys[s] == [file.entries[s].key]
      ensures file.Parsed? ==>
        forall s :: s in file.entries && file.entries[s].KeyArray? ==> keys[s] == file.entries[s].keys
      ensures forall s :: s in keys ==> s in cursors && cursors[s] == 0
    {
      var k, c := LoadEntries(file);
      keys, cursors, saves := k, c, [];
    }

    method GetKey(service: string) returns (key: Option<string>)
      requires Valid()
      modifies this
      ensures Valid() && saves == old(saves)
      ensures (key, State()) == Draw(old(State()), service)
    {
      if service !in keys || |keys[service]| == 0 {
        return None;
      }
      var c := if service in cursors then cursors[service] else 0;
      key := Some(keys[service][c]);
      cursors := cursors[service := (c + 1) % |keys[service]|];
    }

    method AddKey(service: string, key: string) returns (added: bool)
      requires Valid()
      modifies this
      ensures Valid()
      ensures (added, State()) == Add(old(State()), service, key)
      ensures saves == if added then old(saves) + [keys] else old(saves)
    {
      ghost var before := keys;
      if service !in keys {
        keys := keys[service := []];
      }
      if key !in keys[service] {
        keys := keys[service := keys[service] + [key]];
        assert keys == before[service := (if service in before then before[service] else []) + [key]];
        saves := saves + [keys];
        return true;
      }
      return false;
    }

    method RemoveKey(service: string, key: string) returns (removed: bool)
      requires Valid()
      modifies this
      ensures Valid()
      ensures (removed, State()) == Remove(old(State()), service, key)
      ensures saves == if removed then old(saves) + [keys] else old(saves)
    {
      if service !in keys {
        return false;
      }
      var initialLength := |keys[service]|;
      keys := keys[service := Without(keys[service], key)];
      if |keys[service]| < initialLength {
        if service in cursors && cursors[service] >= |keys[service]| {
          cursors := cursors[service := 0];
        }
        saves := saves + [keys];
        return true;
      }
      return false;
    }

    function GetKeyCount(service: string): (n: nat)
      reads this
      ensures n == KeyCount(State(), service)
    {
      if service in keys then |keys[service]| else 0
    }

    /** `getAllKeys`: the whole map from service to key list. */
    function AllKeys(): (all: map<string, seq<string>>)
      reads this
      ensures forall s :: s in all ==> |all[s]| == GetKeyCount(s)
      ensures forall s :: s !in all ==> GetKeyCount(s) == 0
    {
      keys
    }
  }
}
