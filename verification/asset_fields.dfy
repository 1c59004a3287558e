/** `AssetAPIFields::try_from`: the five identifiers the fee and oracle runtime
    APIs need, taken from the aliases `TransactionPayment`, `RuntimeCall`,
    `Balance`, `OracleKey` and `Oracle`. */
module AssetFields {
  import opened Wrappers
  import opened Extraction

  datatype AssetApiFields = AssetApiFields(
    transactionPayment: Ident,
    balance: Ident,
    call: Ident,
    oracleKey: Ident,
    oracle: Ident)

  /** The alias names the scan recognises. The checks after the scan run in a
      different order: `Balance` before `RuntimeCall`. */
  const Names: set<string> := {"TransactionPayment", "RuntimeCall", "Balance", "OracleKey", "Oracle"}

  predicate AllDeclared(items: seq<Item>) {
    && Declared(items, "TransactionPayment")
    && Declared(items, "Balance")
    && Declared(items, "RuntimeCall")
    && Declared(items, "OracleKey")
    && Declared(items, "Oracle")
  }

  function TryFrom(items: seq<Item>, resolve: Resolver): (r: Result<AssetApiFields, string>)
    ensures r.Success? <==> AllDeclared(items)
    ensures r.Success? ==>
      r.value == AssetApiFields(
        Resolved(items, "TransactionPayment", resolve),
        Resolved(items, "Balance", resolve),
        Resolved(items, "RuntimeCall", resolve),
        Resolved(items, "OracleKey", resolve),
        Resolved(items, "Oracle", resolve))
    ensures !Declared(items, "TransactionPayment") ==>
      r == Failure(Missing("TransactionPayment"))
    ensures Declared(items, "TransactionPayment") && !Declared(items, "Balance") ==>
      r == Failure(Missing("Balance"))
    ensures (Declared(items, "TransactionPayment") && Declared(items, "Balance")
             && !Declared(items, "RuntimeCall")) ==>
      r == Failure(Missing("RuntimeCall"))
    ensures (Declared(items, "TransactionPayment") && Declared(items, "Balance")
             && Declared(items, "RuntimeCall") && !Declared(items, "OracleKey")) ==>
      r == Failure(Missing("OracleKey"))
    ensures (Declared(items, "TransactionPayment") && Declared(items, "Balance")
             && Declared(items, "RuntimeCall") && Declared(items, "OracleKey")
             && !Declared(items, "Oracle")) ==>
      r == Failure(Missing("Oracle"))
  {
    var slots := Scan(items, Names, resolve);
    if "TransactionPayment" !in slots then Failure(Missing("TransactionPayment"))
    else if "Balance" !in slots then Failure(Missing("Balance"))
    else if "RuntimeCall" !in slots then Failure(Missing("RuntimeCall"))
    else if "OracleKey" !in slots then Failure(Missing("OracleKey"))
    else if "Oracle" !in slots then Failure(Missing("Oracle"))
    else
      Success(AssetApiFields(
        slots["TransactionPayment"], slots["Balance"], slots["RuntimeCall"],
        slots["OracleKey"], slots["Oracle"]))
  }

  /** An item that is not an alias, or an alias of an unlisted name, inserted
      anywhere, changes nothing: no error and no slot touched. */
  lemma TryFromIgnoresIrrelevant(items: seq<Item>, k: nat, x: Item, resolve: Resolver)
    requires k <= |items|
    requires !Relevant(x, Names)
    ensures TryFrom(items[..k] + [x] + items[k..], resolve) == TryFrom(items, resolve)
  {
    ScanInsertIrrelevant(items[..k], x, items[k..], Names, resolve);
    assert items[..k] + items[k..] == items;
  }

  /** Without duplicate alias names, any rearrangement of the items gives the
      same result. */
  lemma TryFromPermutation(items: seq<Item>, other: seq<Item>, resolve: Resolver)
    requires DistinctAliases(items)
    requires multiset(items) == multiset(other)
    ensures TryFrom(items, resolve) == TryFrom(other, resolve)
  {
    ScanPermutation(items, other, Names, resolve);
  }

  /** The record with the field filled from alias `name` replaced. */
  function WithField(f: AssetApiFields, name: string, id: Ident): AssetApiFields {
    if name == "TransactionPayment" then f.(transactionPayment := id)
    else if name == "RuntimeCall" then f.(call := id)
    else if name == "Balance" then f.(balance := id)
    else if name == "OracleKey" then f.(oracleKey := id)
    else if name == "Oracle" then f.(oracle := id)
    else f
  }

  /** Appending an alias of a recognised name to a successful extraction
      replaces that one field and keeps the other four. */
  lemma TryFromAppendOverwrites(items: seq<Item>, name: string, ty: TypeExpr, resolve: Resolver)
    requires name in Names
    requires TryFrom(items, resolve).Success?
    ensures TryFrom(items + [TypeAlias(name, ty)], resolve) ==
      Success(WithField(TryFrom(items, resolve).value, name, resolve(ty)))
  {
    var s := items + [TypeAlias(name, ty)];
    ScanAppendAlias(items, name, ty, Names, resolve);
    var f := TryFrom(items, resolve).value;
    var g := TryFrom(s, resolve).value;
    if name == "TransactionPayment" {
      assert g == f.(transactionPayment := resolve(ty));
    } else if name == "Balance" {
      assert g == f.(balance := resolve(ty));
    } else if name == "RuntimeCall" {
      assert g == f.(call := resolve(ty));
    } else if name == "OracleKey" {
      assert g == f.(oracleKey := resolve(ty));
    } else {
      assert g == f.(oracle := resolve(ty));
    }
  }

  /** A list missing exactly one field fails, and succeeds once an alias for
      that field is appended. */
  lemma TryFromAppendCompletes(items: seq<Item>, name: string, ty: TypeExpr, resolve: Resolver)
    requires name in Names && !Declared(items, name)
    requires forall n :: n in Names && n != name ==> Declared(items, n)
    ensures TryFrom(items, resolve) == Failure(Missing(name))
    ensures TryFrom(items + [TypeAlias(name, ty)], resolve).Success?
  {
    ScanAppendAlias(items, name, ty, Names, resolve);
  }
}
