/** `EVMAPIFields::try_from`: the three identifiers the EVM runtime APIs need,
    taken from the aliases `RuntimeCall`, `Executive` and `Ethereum`. */
module EvmFields {
  import opened Wrappers
  import opened Extraction

  datatype EvmApiFields = EvmApiFields(call: Ident, executive: Ident, ethereum: Ident)

  /** The alias names the scan recognises. */
  const Names: set<string> := {"RuntimeCall", "Executive", "Ethereum"}

  function TryFrom(items: seq<Item>, resolve: Resolver): (r: Result<EvmApiFields, string>)
    ensures r.Success? <==>
      Declared(items, "RuntimeCall") && Declared(items, "Executive") && Declared(items, "Ethereum")
    ensures r.Success? ==>
      r.value == EvmApiFields(
        Resolved(items, "RuntimeCall", resolve),
        Resolved(items, "Executive", resolve),
        Resolved(items, "Ethereum", resolve))
    ensures !Declared(items, "Executive") ==>
      r == Failure(Missing("Executive"))
    ensures Declared(items, "Executive") && !Declared(items, "Ethereum") ==>
      r == Failure(Missing("Ethereum"))
    ensures Declared(items, "Executive") && Declared(items, "Ethereum") && !Declared(items, "RuntimeCall") ==>
      r == Failure(Missing("Call"))
  {
    var slots := Scan(items, Names, resolve);
    if "Executive" !in slots then Failure(Missing("Executive"))
    else if "Ethereum" !in slots then Failure(Missing("Ethereum"))
    else if "RuntimeCall" !in slots then Failure(Missing("Call"))
    else Success(EvmApiFields(slots["RuntimeCall"], slots["Executive"], slots["Ethereum"]))
  }

  /** An item that is not an alias, or an alias of another name, inserted
      anywhere, changes nothing. */
  lemma TryFromIgnoresIrrelevant(items: seq<Item>, k: nat, x: Item, resolve: Resolver)
    requires k <= |items|
    requires !Relevant(x, Names)
    ensures TryFrom(items[..k] + [x] + items[k..], resolve) == TryFrom(items, resolve)
  {
    ScanInsertIrrelevant(items[..k], x, items[k..], Names, resolve);
    assert items[..k] + items[k..] == items;
  }

  /** Appending an alias of a recognised name to a successful extraction
      replaces that one field and keeps the other two. */
  lemma TryFromAppendOverwrites(items: seq<Item>, name: string, ty: TypeExpr, resolve: Resolver)
    requires name in Names
    requires TryFrom(items, resolve).Success?
    ensures TryFrom(items + [TypeAlias(name, ty)], resolve) ==
      Success(WithField(TryFrom(items, resolve).value, name, resolve(ty)))
  {
    ScanAppendAlias(items, name, ty, Names, resolve);
  }

  /** The record with the field filled from alias `name` replaced. */
  function WithField(f: EvmApiFields, name: string, id: Ident): EvmApiFields {
    if name == "RuntimeCall" then f.(call := id)
    else if name == "Executive" then f.(executive := id)
    else if name == "Ethereum" then f.(ethereum := id)
    else f
  }

  /** When only `RuntimeCall` is missing, the error names `Call`, not the alias
      the scan looks for; appending that alias completes the record. */
  lemma MissingCallReportsCall(items: seq<Item>, ty: TypeExpr, resolve: Resolver)
    requires Declared(items, "Executive") && Declared(items, "Ethereum") && !Declared(items, "RuntimeCall")
    ensures TryFrom(items, resolve) == Failure(Missing("Call"))
    ensures TryFrom(items, resolve).error != Missing("RuntimeCall")
    ensures TryFrom(items + [TypeAlias("RuntimeCall", ty)], resolve).Success?
  {
    ScanAppendAlias(items, "RuntimeCall", ty, Names, resolve);
  }

  /** When `Executive` or `Ethereum` is the only alias missing, the error names
      it, and appending that alias completes the record. */
  lemma MissingOneReportsIt(items: seq<Item>, name: string, ty: TypeExpr, resolve: Resolver)
    requires name == "Executive" || name == "Ethereum"
    requires !Declared(items, name)
    requires forall n :: n in Names && n != name ==> Declared(items, n)
    ensures TryFrom(items, resolve) == Failure(Missing(name))
    ensures TryFrom(items + [TypeAlias(name, ty)], resolve).Success?
  {
    ScanAppendAlias(items, name, ty, Names, resolve);
  }
}
