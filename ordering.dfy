/**
 * The order both listings are sorted in: a group flag first (directories in
 * `listDirectory`, links in `getHtdocsFolders`), then PHP's `strcasecmp` on
 * the name. `usort` is modelled by a stable insertion sort, as PHP 8's sort is
 * stable.
 */
module Ordering {
  import opened Text

  /** The sign of PHP's `strcasecmp(a, b)`: byte order after ASCII lower-casing. */
  function CaseCmp(a: string, b: string): (r: int)
    ensures -1 <= r <= 1
    decreases |a|
  {
    if a == [] && b == [] then 0
    else if a == [] then -1
    else if b == [] then 1
    else if LowerChar(a[0]) < LowerChar(b[0]) then -1
    else if LowerChar(a[0]) > LowerChar(b[0]) then 1
    else CaseCmp(a[1..], b[1..])
  }

  lemma {:induction false} CaseCmpAntisymmetric(a: string, b: string)
    ensures CaseCmp(a, b) == -CaseCmp(b, a)
    decreases |a|
  {
    if a != [] && b != [] && LowerChar(a[0]) == LowerChar(b[0]) {
      CaseCmpAntisymmetric(a[1..], b[1..]);
    }
  }

  /** `strcasecmp` says "equal" exactly when the lower-cased names are equal. */
  lemma {:induction false} CaseCmpZero(a: string, b: string)
    ensures CaseCmp(a, b) == 0 <==> Lower(a) == Lower(b)
    decreases |a|
  {
    if a != [] && b != [] {
      CaseCmpZero(a[1..], b[1..]);
      assert Lower(a) == [LowerChar(a[0])] + Lower(a[1..]);
      assert Lower(b) == [LowerChar(b[0])] + Lower(b[1..]);
      if Lower(a) == Lower(b) {
        assert Lower(a)[0] == Lower(b)[0];
        assert Lower(a)[1..] == Lower(b)[1..];
      }
    } else if a != [] {
      assert |Lower(a)| != |Lower(b)|;
    } else if b != [] {
      assert |Lower(a)| != |Lower(b)|;
    }
  }

  lemma {:induction false} CaseCmpTransitive(a: string, b: string, c: string)
    requires CaseCmp(a, b) <= 0 && CaseCmp(b, c) <= 0
    ensures CaseCmp(a, c) <= 0
    decreases |a|
  {
    if a != [] && b != [] && c != [] &&
       LowerChar(a[0]) == LowerChar(b[0]) && LowerChar(b[0]) == LowerChar(c[0]) {
      CaseCmpTransitive(a[1..], b[1..], c[1..]);
    }
  }

  /** What a comparator looks at: whether the item belongs to the group sorted first, and its name. */
  datatype SortKey = SortKey(first: bool, name: string)

  /** The comparator of index.php:179-183 and 866-870. */
  function KeyCmp(x: SortKey, y: SortKey): (r: int)
    ensures -1 <= r <= 1
    ensures x.first && !y.first ==> r < 0
    ensures !x.first && y.first ==> r > 0
    ensures x.first == y.first ==> r == CaseCmp(x.name, y.name)
  {
    if x.first && !y.first then -1
    else if !x.first && y.first then 1
    else CaseCmp(x.name, y.name)
  }

  lemma KeyCmpAntisymmetric(x: SortKey, y: SortKey)
    ensures KeyCmp(x, y) == -KeyCmp(y, x)
  {
    CaseCmpAntisymmetric(x.name, y.name);
  }

  lemma KeyCmpTransitive(x: SortKey, y: SortKey, z: SortKey)
    requires KeyCmp(x, y) <= 0 && KeyCmp(y, z) <= 0
    ensures KeyCmp(x, z) <= 0
  {
    if x.first == y.first == z.first {
      CaseCmpTransitive(x.name, y.name, z.name);
    }
  }

  /** Every earlier item compares at most equal to every later one. */
  ghost predicate Sorted<T>(s: seq<T>, key: T -> SortKey)
  {
    forall i, j :: 0 <= i < j < |s| ==> KeyCmp(key(s[i]), key(s[j])) <= 0
  }

  /** Puts `x` before the first item it compares below or equal to. */
  function Insert<T>(x: T, s: seq<T>, key: T -> SortKey): seq<T>
  {
    if s == [] then [x]
    else if KeyCmp(key(x), key(s[0])) <= 0 then [x] + s
    else [s[0]] + Insert(x, s[1..], key)
  }

  /** `usort($items, …)` with the comparator `KeyCmp`. */
  function Sort<T>(s: seq<T>, key: T -> SortKey): seq<T>
  {
    if s == [] then [] else Insert(s[0], Sort(s[1..], key), key)
  }

  lemma {:induction false} InsertPermutes<T>(x: T, s: seq<T>, key: T -> SortKey)
    ensures multiset(Insert(x, s, key)) == multiset(s) + multiset{x}
  {
    if s != [] && KeyCmp(key(x), key(s[0])) > 0 {
      InsertPermutes(x, s[1..], key);
      assert s == [s[0]] + s[1..];
    }
  }

  lemma {:induction false} InsertSorted<T>(x: T, s: seq<T>, key: T -> SortKey)
    requires Sorted(s, key)
    ensures Sorted(Insert(x, s, key), key)
  {
    if s == [] {
    } else if KeyCmp(key(x), key(s[0])) <= 0 {
      var r := [x] + s;
      forall i, j | 0 <= i < j < |r| ensures KeyCmp(key(r[i]), key(r[j])) <= 0 {
        if i == 0 && j > 1 {
          KeyCmpTransitive(key(x), key(s[0]), key(s[j - 1]));
        }
      }
    } else {
      var t := s[1..];
      InsertSorted(x, t, key);
      InsertPermutes(x, t, key);
      KeyCmpAntisymmetric(key(x), key(s[0]));
      var r := [s[0]] + Insert(x, t, key);
      forall i, j | 0 <= i < j < |r| ensures KeyCmp(key(r[i]), key(r[j])) <= 0 {
        if i == 0 {
          var y := r[j];
          assert y in multiset(Insert(x, t, key));
          assert y in multiset(t) || y == x;
          if y != x {
            var k :| 0 <= k < |t| && t[k] == y;
            assert s[k + 1] == y;
          }
        }
      }
    }
  }

  /** The sorted listing is ordered by the comparator. */
  lemma {:induction false} SortSorted<T>(s: seq<T>, key: T -> SortKey)
    ensures Sorted(Sort(s, key), key)
  {
    if s != [] {
      SortSorted(s[1..], key);
      InsertSorted(s[0], Sort(s[1..], key), key);
    }
  }

  /** The sorted listing holds the same items, each as often. */
  lemma {:induction false} SortPermutes<T>(s: seq<T>, key: T -> SortKey)
    ensures multiset(Sort(s, key)) == multiset(s)
  {
    if s != [] {
      SortPermutes(s[1..], key);
      InsertPermutes(s[0], Sort(s[1..], key), key);
      assert s == [s[0]] + s[1..];
    }
  }

  /**
   * What the sorted listing looks like: the group sorted first comes before
   * the rest, each group is in `strcasecmp` order, and the items are those of
   * the input, each as often.
   */
  lemma SortGroups<T>(s: seq<T>, key: T -> SortKey)
    ensures var t := Sort(s, key);
            && multiset(t) == multiset(s)
            && (forall x :: x in t <==> x in s)
            && (forall i, j :: 0 <= i < j < |t| ==> !(!key(t[i]).first && key(t[j]).first))
            && (forall i, j :: 0 <= i < j < |t| && key(t[i]).first == key(t[j]).first ==>
                  CaseCmp(key(t[i]).name, key(t[j]).name) <= 0)
  {
    var t := Sort(s, key);
    SortSorted(s, key);
    SortPermutes(s, key);
    forall x | x in t ensures x in s {
      assert x in multiset(t);
    }
    forall x | x in s ensures x in t {
      assert x in multiset(s);
    }
    forall i, j | 0 <= i < j < |t| ensures !(!key(t[i]).first && key(t[j]).first) {
      assert KeyCmp(key(t[i]), key(t[j])) <= 0;
    }
  }
}
