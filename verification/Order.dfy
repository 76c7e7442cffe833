/// The order of text keys in an ordered map, and listing a finite set in that order.
module Order {

  /// Strictly before, character by character.
  predicate Before(a: string, b: string) {
    if b == [] then false
    else if a == [] then true
    else a[0] < b[0] || (a[0] == b[0] && Before(a[1..], b[1..]))
  }

  lemma {:induction false} BeforeIsTotal(a: string, b: string)
    ensures a == b || Before(a, b) || Before(b, a)
  {
    if a != [] && b != [] && a[0] == b[0] {
      BeforeIsTotal(a[1..], b[1..]);
      assert a == [a[0]] + a[1..] && b == [b[0]] + b[1..];
    }
  }

  lemma {:induction false} BeforeIsAsymmetric(a: string, b: string)
    ensures !(Before(a, b) && Before(b, a))
  {
    if a != [] && b != [] {
      BeforeIsAsymmetric(a[1..], b[1..]);
    }
  }

  lemma {:induction false} BeforeIsTransitive(a: string, b: string, c: string)
    requires Before(a, b) && Before(b, c)
    ensures Before(a, c)
  {
    if a != [] {
      if a[0] == b[0] == c[0] {
        BeforeIsTransitive(a[1..], b[1..], c[1..]);
      }
    }
  }

  /// A time and a name; earlier times first, then names in order.
  datatype Key = Key(time: nat, id: string)

  predicate Earlier(a: Key, b: Key) {
    a.time < b.time || (a.time == b.time && Before(a.id, b.id))
  }

  lemma EarlierIsTotal(a: Key, b: Key)
    ensures a == b || Earlier(a, b) || Earlier(b, a)
    ensures !(Earlier(a, b) && Earlier(b, a))
  {
    BeforeIsTotal(a.id, b.id);
    BeforeIsAsymmetric(a.id, b.id);
  }

  lemma EarlierIsTransitive(a: Key, b: Key, c: Key)
    requires Earlier(a, b) && Earlier(b, c)
    ensures Earlier(a, c)
  {
    if a.time == b.time == c.time {
      BeforeIsTransitive(a.id, b.id, c.id);
    }
  }

  predicate Ordered(keys: seq<Key>) {
    forall i, j :: 0 <= i < j < |keys| ==> Earlier(keys[i], keys[j])
  }

  predicate IsLeast(k: Key, keys: set<Key>) {
    k in keys && forall o :: o in keys && o != k ==> Earlier(k, o)
  }

  lemma {:induction false} LeastExists(keys: set<Key>) returns (least: Key)
    requires keys != {}
    ensures IsLeast(least, keys)
  {
    least :| least in keys;
    if keys != {least} {
      var m := LeastExists(keys - {least});
      EarlierIsTotal(least, m);
      if Earlier(least, m) {
        forall o | o in keys && o != least ensures Earlier(least, o) {
          if o != m {
            EarlierIsTransitive(least, m, o);
          }
        }
      } else {
        least := m;
      }
    }
  }

  lemma SomeLeast(keys: set<Key>)
    requires keys != {}
    ensures exists k :: IsLeast(k, keys)
  {
    var _ := LeastExists(keys);
  }

  /// The members of a set in order.
  ghost function Listed(keys: set<Key>): (list: seq<Key>)
    decreases |keys|
  {
    if keys == {} then []
    else
      SomeLeast(keys);
      var k :| IsLeast(k, keys);
      [k] + Listed(keys - {k})
  }

  lemma {:induction false} ListedFacts(keys: set<Key>)
    ensures Ordered(Listed(keys)) && |Listed(keys)| == |keys|
    ensures forall k :: k in Listed(keys) <==> k in keys
    decreases |keys|
  {
    if keys != {} {
      SomeLeast(keys);
      var k := Listed(keys)[0];
      ListedFacts(keys - {k});
      var rest := Listed(keys - {k});
      forall j | 0 <= j < |rest| ensures Earlier(k, rest[j]) {
        assert rest[j] in keys - {k};
      }
    }
  }

  lemma FirstIsMember(list: seq<Key>)
    ensures list == [] || list[0] in list
  {
  }

  lemma {:induction false} OrderedIsUnique(a: seq<Key>, b: seq<Key>)
    requires Ordered(a) && Ordered(b) && forall k :: k in a <==> k in b
    ensures a == b
    decreases |a|
  {
    if a == [] {
      FirstIsMember(b);
    } else {
      assert a[0] in a && a[0] in b;
      assert b[0] in b && b[0] in a;
      if a[0] != b[0] {
        EarlierIsTotal(a[0], b[0]);
      }
      forall k ensures k in a[1..] <==> k in b[1..] {
        if k in a[1..] {
          assert k in a;
          EarlierIsTotal(a[0], k);
        }
        if k in b[1..] {
          assert k in b;
          EarlierIsTotal(b[0], k);
        }
      }
      OrderedIsUnique(a[1..], b[1..]);
    }
  }

  method Insert(list: seq<Key>, key: Key) returns (longer: seq<Key>)
    requires Ordered(list) && key !in list
    ensures Ordered(longer) && forall k :: k in longer <==> k in list || k == key
  {
    var at := 0;
    while at < |list| && Earlier(list[at], key)
      invariant at <= |list|
      invariant forall i :: 0 <= i < at ==> Earlier(list[i], key)
    {
      at := at + 1;
    }
    longer := list[..at] + [key] + list[at..];
    forall i | at <= i < |list| ensures Earlier(key, list[i]) {
      EarlierIsTotal(list[at], key);
      if at < i {
        EarlierIsTransitive(key, list[at], list[i]);
      }
    }
    forall k ensures k in longer <==> k in list || k == key {
      assert list == list[..at] + list[at..];
    }
  }

  /// Collecting a set and sorting it.
  method Sort(keys: set<Key>) returns (list: seq<Key>)
    ensures list == Listed(keys)
  {
    list := [];
    var rest := keys;
    while rest != {}
      invariant rest <= keys && Ordered(list)
      invariant forall k :: k in list <==> k in keys && k !in rest
    {
      var key :| key in rest;
      list := Insert(list, key);
      rest := rest - {key};
    }
    ListedFacts(keys);
    OrderedIsUnique(list, Listed(keys));
  }
}
