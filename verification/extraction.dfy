/** The scan shared by both `TryFrom<&[Item]>` impls: a left-to-right pass over
    the declaration items that overwrites one slot per recognised `type X = ...;`
    alias and passes over everything else. Each impl then checks its slots in
    its own fixed order. */
module Extraction {
  import opened Wrappers

  /** An identifier of the generated code, as its source text. */
  type Ident = string

  /** The type on the right-hand side of `type X = T;`, as source text; only the
      identifier resolver looks inside it. */
  datatype TypeExpr = TypeExpr(text: string)

  /** One item of the declaration block: a type alias, or any other item
      (function, constant, use, ...), which the extractor passes over. */
  datatype Item = TypeAlias(ident: string, ty: TypeExpr) | OtherItem(kind: string)

  /** The identifier resolver (`fetch_ident`). Its body is not part of this model,
      so every operation takes it as a parameter and no property depends on it. */
  type Resolver = TypeExpr -> Ident

  predicate Declares(item: Item, name: string) {
    item.TypeAlias? && item.ident == name
  }

  /** An item that can change a slot: an alias whose name is one of `names`. */
  predicate Relevant(item: Item, names: set<string>) {
    item.TypeAlias? && item.ident in names
  }

  /** The expression of the last alias named `name`: the reference definition of
      last-write-wins. */
  function LastAlias(items: seq<Item>, name: string): (r: Option<TypeExpr>)
    ensures r.None? <==> forall i :: 0 <= i < |items| ==> !Declares(items[i], name)
    ensures r.Some? ==>
      exists i :: 0 <= i < |items| && items[i] == TypeAlias(name, r.value) &&
        forall j :: i < j < |items| ==> !Declares(items[j], name)
  {
    if items == [] then None
    else
      var last := items[|items| - 1];
      if Declares(last, name) then Some(last.ty)
      else
        var prefix := items[..|items| - 1];
        var r := LastAlias(prefix, name);
        assert r.None? ==> forall i :: 0 <= i < |items| ==> !Declares(items[i], name) by {
          if r.None? {
            forall i | 0 <= i < |items| ensures !Declares(items[i], name) {
              if i < |prefix| { assert items[i] == prefix[i]; }
            }
          }
        }
        assert r.Some? ==>
          exists i :: 0 <= i < |items| && items[i] == TypeAlias(name, r.value) &&
            forall j :: i < j < |items| ==> !Declares(items[j], name)
        by {
          if r.Some? {
            var i :| 0 <= i < |prefix| && prefix[i] == TypeAlias(name, r.value) &&
              forall j :: i < j < |prefix| ==> !Declares(prefix[j], name);
            assert items[i] == prefix[i];
            forall j | i < j < |items| ensures !Declares(items[j], name) {
              if j < |prefix| { assert items[j] == prefix[j]; }
            }
          }
        }
        r
  }

  predicate Declared(items: seq<Item>, name: string) {
    LastAlias(items, name).Some?
  }

  /** The error each impl reports for the first slot it finds unset, naming the
      type it expected. */
  function Missing(name: string): (msg: string)
    ensures |msg| == |name| + 35
    ensures msg[..6] == "`type "
    ensures msg[6..6 + |name|] == name
    ensures msg[6 + |name|..] == "` not specified, but required"
  {
    "`type " + name + "` not specified, but required"
  }

  /** The identifier the last alias named `name` resolves to. */
  function Resolved(items: seq<Item>, name: string, resolve: Resolver): Ident
    requires Declared(items, name)
  {
    resolve(LastAlias(items, name).value)
  }

  /** One iteration of the scan loop: a recognised alias overwrites its slot with
      the resolved identifier, anything else leaves every slot alone. */
  function Step(slots: map<string, Ident>, item: Item, names: set<string>, resolve: Resolver): map<string, Ident>
  {
    match item
    case TypeAlias(ident, ty) => if ident in names then slots[ident := resolve(ty)] else slots
    case OtherItem(_) => slots
  }

  /** The whole scan, all slots initially unset. A slot is set exactly when some
      alias of that name occurs, and then holds the last one's identifier. */
  function Scan(items: seq<Item>, names: set<string>, resolve: Resolver): (slots: map<string, Ident>)
    ensures forall n :: n in slots <==> n in names && Declared(items, n)
    ensures forall n :: n in slots ==> Declared(items, n) && slots[n] == Resolved(items, n, resolve)
  {
    if items == [] then map[]
    else Step(Scan(items[..|items| - 1], names, resolve), items[|items| - 1], names, resolve)
  }

  /** The last alias of a concatenation is the last one in the second part, or
      failing that the last one in the first part. */
  lemma {:induction false} LastAliasConcat(a: seq<Item>, b: seq<Item>, name: string)
    ensures LastAlias(a + b, name) == if Declared(b, name) then LastAlias(b, name) else LastAlias(a, name)
    decreases |b|
  {
    if b == [] {
      assert a + b == a;
    } else {
      var ab := a + b;
      assert ab[|ab| - 1] == b[|b| - 1];
      assert ab[..|ab| - 1] == a + b[..|b| - 1];
      LastAliasConcat(a, b[..|b| - 1], name);
    }
  }

  /** Inserting an irrelevant item anywhere leaves every slot as it was. */
  lemma ScanInsertIrrelevant(a: seq<Item>, x: Item, b: seq<Item>, names: set<string>, resolve: Resolver)
    requires !Relevant(x, names)
    ensures Scan(a + [x] + b, names, resolve) == Scan(a + b, names, resolve)
  {
    var m1 := Scan(a + [x] + b, names, resolve);
    var m2 := Scan(a + b, names, resolve);
    forall n | n in names
      ensures LastAlias(a + [x] + b, n) == LastAlias(a + b, n)
    {
      LastAliasConcat(a + [x], b, n);
      LastAliasConcat(a, [x], n);
      LastAliasConcat(a, b, n);
    }
    assert m1.Keys == m2.Keys;
  }

  /** Appending a recognised alias overwrites exactly its own slot. */
  lemma ScanAppendAlias(items: seq<Item>, name: string, ty: TypeExpr, names: set<string>, resolve: Resolver)
    requires name in names
    ensures Scan(items + [TypeAlias(name, ty)], names, resolve) == Scan(items, names, resolve)[name := resolve(ty)]
  {
    var s := items + [TypeAlias(name, ty)];
    assert s[..|s| - 1] == items;
  }

  /** No two aliases of the list share a name. */
  predicate DistinctAliases(items: seq<Item>) {
    forall i, j :: 0 <= i < j < |items| && items[i].TypeAlias? && items[j].TypeAlias? ==>
      items[i].ident != items[j].ident
  }

  /** Without duplicates, the last alias of a name is its only alias. */
  lemma LastAliasOfDistinct(items: seq<Item>, name: string, ty: TypeExpr)
    requires DistinctAliases(items)
    ensures LastAlias(items, name) == Some(ty) <==> TypeAlias(name, ty) in items
  {
    if TypeAlias(name, ty) in items {
      var i :| 0 <= i < |items| && items[i] == TypeAlias(name, ty);
      var r := LastAlias(items, name);
      var k :| 0 <= k < |items| && items[k] == TypeAlias(name, r.value);
      assert k == i;
    }
  }

  /** A rearrangement of a list without duplicate alias names has none either. */
  lemma DistinctAliasesPermutation(s: seq<Item>, t: seq<Item>)
    requires DistinctAliases(s)
    requires multiset(s) == multiset(t)
    ensures DistinctAliases(t)
  {
    forall i, j | 0 <= i < j < |t| && t[i].TypeAlias? && t[j].TypeAlias?
      ensures t[i].ident != t[j].ident
    {
      if t[i].ident == t[j].ident {
        var x, y := t[i], t[j];
        assert t == t[..j] + [y] + t[j + 1..];
        assert x in t[..j];
        assert multiset{x, y} <= multiset(t);
        assert y in multiset(s);
        var q :| 0 <= q < |s| && s[q] == y;
        assert s == s[..q] + [y] + s[q + 1..];
        assert x in multiset(s[..q] + s[q + 1..]);
        OtherOccurrence(s, q, x);
        assert false;
      }
    }
  }

  /** An element of the list with position `q` removed occurs in the list at a
      position other than `q`. */
  lemma OtherOccurrence(s: seq<Item>, q: nat, x: Item)
    requires q < |s|
    requires x in s[..q] + s[q + 1..]
    ensures exists p :: 0 <= p < |s| && p != q && s[p] == x
  {
    var rest := s[..q] + s[q + 1..];
    var k :| 0 <= k < |rest| && rest[k] == x;
    if k < q {
      assert s[k] == x;
    } else {
      assert s[k + 1] == x;
    }
  }

  /** Without duplicate alias names, the order of the items does not matter. */
  lemma ScanPermutation(s: seq<Item>, t: seq<Item>, names: set<string>, resolve: Resolver)
    requires DistinctAliases(s)
    requires multiset(s) == multiset(t)
    ensures Scan(s, names, resolve) == Scan(t, names, resolve)
  {
    DistinctAliasesPermutation(s, t);
    forall n | n in names
      ensures LastAlias(s, n) == LastAlias(t, n)
    {
      LastAliasPermutation(s, t, n);
    }
    var m1, m2 := Scan(s, names, resolve), Scan(t, names, resolve);
    assert m1.Keys == m2.Keys;
  }

  lemma LastAliasPermutation(s: seq<Item>, t: seq<Item>, name: string)
    requires DistinctAliases(s) && DistinctAliases(t)
    requires multiset(s) == multiset(t)
    ensures LastAlias(s, name) == LastAlias(t, name)
  {
    var ls, lt := LastAlias(s, name), LastAlias(t, name);
    if ls.Some? {
      LastAliasOfDistinct(s, name, ls.value);
      assert TypeAlias(name, ls.value) in multiset(t);
      LastAliasOfDistinct(t, name, ls.value);
    } else if lt.Some? {
      LastAliasOfDistinct(t, name, lt.value);
      assert TypeAlias(name, lt.value) in multiset(s);
      LastAliasOfDistinct(s, name, lt.value);
    }
  }
}
