/** Document field values, the order in which they sort, and the stable sort
    that stands for Python's `list.sort(key=..., reverse=...)` and for the
    ordering the document store applies to an `order_by` query. */
module Values {

  /** A value stored in a document field. Timestamps count ticks since
      `datetime.min`, so `VTime(0)` is `datetime.min` itself. */
  datatype Value =
    | VNull
    | VBool(b: bool)
    | VInt(i: int)
    | VTime(t: nat)
    | VStr(s: string)
    | VList(items: seq<Value>)
    | VMap(fields: map<string, Value>)

  /** The sort key the in-memory sorts give a document that lacks the field. */
  const DatetimeMin: Value := VTime(0)

  /** Position of a value's kind in the store's cross-type order. */
  function Rank(v: Value): nat {
    match v
    case VNull => 0
    case VBool(_) => 1
    case VInt(_) => 2
    case VTime(_) => 3
    case VStr(_) => 4
    case VList(_) => 5
    case VMap(_) => 6
  }

  /** Lexicographic order on strings by code point. */
  predicate StrLe(a: string, b: string)
    decreases |a|
  {
    a == [] || (b != [] && (a[0] < b[0] || (a[0] == b[0] && StrLe(a[1..], b[1..]))))
  }

  /** The (non-strict) order on sort keys: kinds by rank, then within a kind
      booleans false-first, numbers and timestamps numerically, strings
      lexicographically; lists and maps of the same kind tie. */
  predicate KeyLe(a: Value, b: Value) {
    Rank(a) < Rank(b)
    || (Rank(a) == Rank(b) &&
        match a
        case VBool(x) => !x || b.b
        case VInt(x) => x <= b.i
        case VTime(x) => x <= b.t
        case VStr(x) => StrLe(x, b.s)
        case _ => true)
  }

  /** Two keys that sort as equal. */
  predicate KeyEquiv(a: Value, b: Value) {
    KeyLe(a, b) && KeyLe(b, a)
  }

  lemma {:induction false} StrLeTotal(a: string, b: string)
    ensures StrLe(a, b) || StrLe(b, a)
    decreases |a|
  {
    if a != [] && b != [] && a[0] == b[0] {
      StrLeTotal(a[1..], b[1..]);
    }
  }

  lemma {:induction false} StrLeTrans(a: string, b: string, c: string)
    requires StrLe(a, b) && StrLe(b, c)
    ensures StrLe(a, c)
    decreases |a|
  {
    if a != [] && b != [] && c != [] && a[0] == b[0] == c[0] {
      StrLeTrans(a[1..], b[1..], c[1..]);
    }
  }

  lemma KeyLeTotal(a: Value, b: Value)
    ensures KeyLe(a, b) || KeyLe(b, a)
  {
    if a.VStr? && b.VStr? {
      StrLeTotal(a.s, b.s);
    }
  }

  lemma KeyLeTrans(a: Value, b: Value, c: Value)
    requires KeyLe(a, b) && KeyLe(b, c)
    ensures KeyLe(a, c)
  {
    if a.VStr? && b.VStr? && c.VStr? {
      StrLeTrans(a.s, b.s, c.s);
    }
  }

  // ------------------------------------------------------------ stable sort

  /** Whether `x` may come before `y` in a sort by `key`; `desc` reverses the
      key order, as `reverse=True` does. */
  predicate Before<T>(x: T, y: T, key: T -> Value, desc: bool) {
    if desc then KeyLe(key(y), key(x)) else KeyLe(key(x), key(y))
  }

  lemma BeforeTotal<T>(x: T, y: T, key: T -> Value, desc: bool)
    ensures Before(x, y, key, desc) || Before(y, x, key, desc)
  {
    KeyLeTotal(key(x), key(y));
  }

  lemma BeforeTrans<T>(x: T, y: T, z: T, key: T -> Value, desc: bool)
    requires Before(x, y, key, desc) && Before(y, z, key, desc)
    ensures Before(x, z, key, desc)
  {
    if desc {
      KeyLeTrans(key(z), key(y), key(x));
    } else {
      KeyLeTrans(key(x), key(y), key(z));
    }
  }

  predicate SortedBy<T>(s: seq<T>, key: T -> Value, desc: bool) {
    forall i, j :: 0 <= i < j < |s| ==> Before(s[i], s[j], key, desc)
  }

  /** Places `x` in front of the first element it may precede. */
  function Insert<T>(x: T, s: seq<T>, key: T -> Value, desc: bool): (r: seq<T>)
    ensures |r| == |s| + 1
  {
    if s == [] || Before(x, s[0], key, desc) then [x] + s
    else [s[0]] + Insert(x, s[1..], key, desc)
  }

  /** Stable sort of `s` by `key`, descending when `desc`; elements whose keys
      tie keep their order in `s` in both directions, as Python's sort does. */
  function SortBy<T>(s: seq<T>, key: T -> Value, desc: bool): (r: seq<T>)
    ensures |r| == |s|
  {
    if s == [] then [] else Insert(s[0], SortBy(s[1..], key, desc), key, desc)
  }

  lemma {:induction false} InsertCorrect<T>(x: T, s: seq<T>, key: T -> Value, desc: bool)
    requires SortedBy(s, key, desc)
    ensures SortedBy(Insert(x, s, key, desc), key, desc)
    ensures multiset(Insert(x, s, key, desc)) == multiset(s) + multiset{x}
  {
    if s == [] {
    } else if Before(x, s[0], key, desc) {
      forall j | 0 <= j < |s|
        ensures Before(x, s[j], key, desc)
      {
        if j > 0 {
          BeforeTrans(x, s[0], s[j], key, desc);
        }
      }
    } else {
      BeforeTotal(x, s[0], key, desc);
      var rest := Insert(x, s[1..], key, desc);
      InsertCorrect(x, s[1..], key, desc);
      assert s == [s[0]] + s[1..];
      forall j | 0 <= j < |rest|
        ensures Before(s[0], rest[j], key, desc)
      {
        assert rest[j] in multiset(rest);
        if rest[j] != x {
          assert rest[j] in s[1..];
          var k :| 0 <= k < |s[1..]| && s[1..][k] == rest[j];
          assert s[k + 1] == rest[j];
        }
      }
    }
  }

  /** `SortBy` yields a sorted permutation of its input. */
  lemma {:induction false} SortByCorrect<T>(s: seq<T>, key: T -> Value, desc: bool)
    ensures SortedBy(SortBy(s, key, desc), key, desc)
    ensures multiset(SortBy(s, key, desc)) == multiset(s)
    ensures |SortBy(s, key, desc)| == |s|
  {
    if s != [] {
      SortByCorrect(s[1..], key, desc);
      InsertCorrect(s[0], SortBy(s[1..], key, desc), key, desc);
      assert s == [s[0]] + s[1..];
    }
  }

  /** The elements of `s` whose key sorts equal to `v`, in their order in `s`. */
  function Ties<T>(s: seq<T>, key: T -> Value, v: Value): seq<T> {
    if s == [] then []
    else (if KeyEquiv(key(s[0]), v) then [s[0]] else []) + Ties(s[1..], key, v)
  }

  lemma {:induction false} TiesInsert<T>(x: T, s: seq<T>, key: T -> Value, desc: bool, v: Value)
    ensures Ties(Insert(x, s, key, desc), key, v)
         == (if KeyEquiv(key(x), v) then [x] else []) + Ties(s, key, v)
  {
    if s == [] || Before(x, s[0], key, desc) {
      assert ([x] + s)[1..] == s;
    } else {
      TiesInsert(x, s[1..], key, desc, v);
      var r := Insert(x, s, key, desc);
      assert r[1..] == Insert(x, s[1..], key, desc);
      if KeyEquiv(key(x), v) && KeyEquiv(key(s[0]), v) {
        KeyLeTrans(key(x), v, key(s[0]));
        KeyLeTrans(key(s[0]), v, key(x));
        assert false;
      }
    }
  }

  /** Stability: sorting does not reorder elements whose keys tie. */
  lemma {:induction false} SortByStable<T>(s: seq<T>, key: T -> Value, desc: bool, v: Value)
    ensures Ties(SortBy(s, key, desc), key, v) == Ties(s, key, v)
  {
    if s != [] {
      SortByStable(s[1..], key, desc, v);
      TiesInsert(s[0], SortBy(s[1..], key, desc), key, desc, v);
    }
  }

  /** `s` back to front. */
  function Reverse<T>(s: seq<T>): (r: seq<T>)
    ensures |r| == |s|
    ensures forall i :: 0 <= i < |s| ==> r[i] == s[|s| - 1 - i]
  {
    if s == [] then [] else Reverse(s[1..]) + [s[0]]
  }

  /** Reversing an ascending order gives a descending one with the same elements. */
  lemma {:induction false} ReverseSorted<T>(s: seq<T>, key: T -> Value)
    requires SortedBy(s, key, false)
    ensures SortedBy(Reverse(s), key, true)
    ensures multiset(Reverse(s)) == multiset(s)
  {
    var r := Reverse(s);
    forall i, j | 0 <= i < j < |r|
      ensures Before(r[i], r[j], key, true)
    {
      assert Before(s[|s| - 1 - j], s[|s| - 1 - i], key, false);
    }
    if s != [] {
      ReverseSorted(s[1..], key);
      assert s == [s[0]] + s[1..];
    }
  }

  /** Reversing a sequence reverses each group of ties. */
  lemma {:induction false} TiesReverse<T>(s: seq<T>, key: T -> Value, v: Value)
    ensures Ties(Reverse(s), key, v) == Reverse(Ties(s, key, v))
  {
    if s != [] {
      var rest := Reverse(s[1..]);
      assert Reverse(s) == rest + [s[0]];
      TiesReverse(s[1..], key, v);
      TiesAppend(rest, [s[0]], key, v);
      var head := if KeyEquiv(key(s[0]), v) then [s[0]] else [];
      assert Ties([s[0]], key, v) == head + Ties([s[0]][1..], key, v);
      assert Ties(s, key, v) == head + Ties(s[1..], key, v);
      ReversePrefix(head, Ties(s[1..], key, v));
    }
  }

  lemma ReversePrefix<T>(head: seq<T>, t: seq<T>)
    requires |head| <= 1
    ensures Reverse(head + t) == Reverse(t) + head
  {
    if head != [] {
      assert (head + t)[1..] == t;
    } else {
      assert head + t == t;
    }
  }

  lemma {:induction false} TiesAppend<T>(a: seq<T>, b: seq<T>, key: T -> Value, v: Value)
    ensures Ties(a + b, key, v) == Ties(a, key, v) + Ties(b, key, v)
  {
    if a == [] {
      assert a + b == b;
    } else {
      var ab := a + b;
      assert ab[0] == a[0] && ab[1..] == a[1..] + b;
      var head := if KeyEquiv(key(a[0]), v) then [a[0]] else [];
      assert Ties(ab, key, v) == head + Ties(ab[1..], key, v);
      assert Ties(a, key, v) == head + Ties(a[1..], key, v);
      TiesAppend(a[1..], b, key, v);
    }
  }

  /** The sort only looks at the keys of the elements it sorts. */
  lemma {:induction false} SortBySameKeys<T>(s: seq<T>, key1: T -> Value, key2: T -> Value, desc: bool)
    requires forall i :: 0 <= i < |s| ==> key1(s[i]) == key2(s[i])
    ensures SortBy(s, key1, desc) == SortBy(s, key2, desc)
  {
    if s != [] {
      SortBySameKeys(s[1..], key1, key2, desc);
      SortByCorrect(s[1..], key1, desc);
      InsertSameKeys(s[0], SortBy(s[1..], key1, desc), key1, key2, desc);
    }
  }

  lemma {:induction false} InsertSameKeys<T>(x: T, s: seq<T>, key1: T -> Value, key2: T -> Value, desc: bool)
    requires key1(x) == key2(x)
    requires forall e :: e in multiset(s) ==> key1(e) == key2(e)
    ensures Insert(x, s, key1, desc) == Insert(x, s, key2, desc)
  {
    if s != [] {
      assert s[0] in multiset(s);
      if !Before(x, s[0], key1, desc) {
        assert s == [s[0]] + s[1..];
        InsertSameKeys(x, s[1..], key1, key2, desc);
      }
    }
  }
}
