/** The code fragments `assets_apis` and `evm_apis` emit, abstracted from token
    streams to impl records: which trait is implemented, with which generic
    arguments, for which target, and, per method, which items of which
    identifiers the body refers to, in order of appearance. A fragment is a fixed
    skeleton whose placeholders (`#runtime`, `#block`, ...) are filled from the
    identifiers the caller passes in.

    A method lists the body's references to runtime items: pallets, their
    storage and configuration, and the runtime's own types, whether reached
    through a placeholder or written literally (`System::block_number`,
    `UncheckedExtrinsic::new_unsigned`). Constructors of plain data types from
    the primitives crates (`TransactionData::new`, `TransactionAction`,
    `H256::from_slice`) are not listed. */
module Template {
  import opened Extraction

  /** The placeholders of the two skeletons, one per parameter of
      `assets_apis` and `evm_apis`. */
  datatype Param =
    | Runtime | Block
    | TransactionPayment | Balance | Call | OracleKey | Oracle
    | RuntimeCall | Executive | Ethereum

  /** A position of the skeleton: a placeholder, or identifier text written
      literally into the template. */
  datatype Term = Hole(param: Param) | Lit(text: string)

  /** A reference from a method body to `item`, reached through `path`
      instantiated at `subject`; an empty path stands for `subject::item`, so
      `#transaction_payment::weight_to_fee` is `Use("", tp, "weight_to_fee")` and
      `pallet_evm::Pallet::<#runtime>::account_basic` is
      `Use("pallet_evm::Pallet", runtime, "account_basic")`. */
  datatype Use<A> = Use(path: string, subject: A, item: string)

  datatype Method<A> = Method(name: string, uses: seq<Use<A>>)

  datatype Impl<A> = Impl(traitPath: string, traitArgs: seq<A>, target: A, methods: seq<Method<A>>)

  /** The identifiers the caller passes in, one per placeholder. */
  type Env = Param -> Ident

  function Fill(t: Term, env: Env): Ident {
    match t
    case Hole(p) => env(p)
    case Lit(text) => text
  }

  function FillUse(u: Use<Term>, env: Env): Use<Ident> {
    Use(u.path, Fill(u.subject, env), u.item)
  }

  function FillMethod(m: Method<Term>, env: Env): Method<Ident> {
    Method(m.name, seq(|m.uses|, k requires 0 <= k < |m.uses| => FillUse(m.uses[k], env)))
  }

  function FillImpl(i: Impl<Term>, env: Env): Impl<Ident> {
    Impl(
      i.traitPath,
      seq(|i.traitArgs|, k requires 0 <= k < |i.traitArgs| => Fill(i.traitArgs[k], env)),
      Fill(i.target, env),
      seq(|i.methods|, k requires 0 <= k < |i.methods| => FillMethod(i.methods[k], env)))
  }

  function EraseMethod<A>(m: Method<A>): Method<()> {
    Method(m.name, seq(|m.uses|, k requires 0 <= k < |m.uses| => Use(m.uses[k].path, (), m.uses[k].item)))
  }

  /** What is left of an impl once every identifier is forgotten: the trait,
      the arity of its arguments, the method names and the items they use. */
  function Shape<A>(i: Impl<A>): Impl<()> {
    Impl(
      i.traitPath,
      seq(|i.traitArgs|, k requires 0 <= k < |i.traitArgs| => ()),
      (),
      seq(|i.methods|, k requires 0 <= k < |i.methods| => EraseMethod(i.methods[k])))
  }

  /** Fill every placeholder of a skeleton from `env`: the number of impls and
      each impl's shape are kept, and `InstantiatePlaces` says what each
      position becomes. */
  function Instantiate(skeleton: seq<Impl<Term>>, env: Env): (r: seq<Impl<Ident>>)
    ensures |r| == |skeleton|
    ensures forall i :: 0 <= i < |r| ==> Shape(r[i]) == Shape(skeleton[i])
  {
    var r := seq(|skeleton|, i requires 0 <= i < |skeleton| => FillImpl(skeleton[i], env));
    assert forall i :: 0 <= i < |r| ==> Shape(r[i]) == Shape(skeleton[i]) by {
      forall i | 0 <= i < |r| {
        ShapeOfFill(skeleton[i], env);
      }
    }
    r
  }

  /** What a skeleton position becomes: a placeholder `p` becomes `env(p)`, a
      literal keeps its text. */
  predicate Placed(t: Term, x: Ident, env: Env) {
    (t.Hole? ==> x == env(t.param)) && (t.Lit? ==> x == t.text)
  }

  /** In every instantiated impl, each trait argument, the target and the
      subject of each reference is the placed value of the skeleton's term at
      that position; paths, items and names are copied. */
  lemma InstantiatePlaces(skeleton: seq<Impl<Term>>, env: Env, i: nat)
    requires i < |skeleton|
    ensures var r := Instantiate(skeleton, env);
      && |r[i].traitArgs| == |skeleton[i].traitArgs|
      && (forall k :: 0 <= k < |r[i].traitArgs| ==> Placed(skeleton[i].traitArgs[k], r[i].traitArgs[k], env))
      && Placed(skeleton[i].target, r[i].target, env)
      && r[i].traitPath == skeleton[i].traitPath
      && |r[i].methods| == |skeleton[i].methods|
      && (forall m :: 0 <= m < |r[i].methods| ==>
            && r[i].methods[m].name == skeleton[i].methods[m].name
            && |r[i].methods[m].uses| == |skeleton[i].methods[m].uses|
            && forall u :: 0 <= u < |r[i].methods[m].uses| ==>
                 && Placed(skeleton[i].methods[m].uses[u].subject, r[i].methods[m].uses[u].subject, env)
                 && r[i].methods[m].uses[u].path == skeleton[i].methods[m].uses[u].path
                 && r[i].methods[m].uses[u].item == skeleton[i].methods[m].uses[u].item)
  {
    var r := Instantiate(skeleton, env);
    assert r[i] == FillImpl(skeleton[i], env);
  }

  /** Filling placeholders never changes an impl's shape. */
  lemma ShapeOfFill(i: Impl<Term>, env: Env)
    ensures Shape(FillImpl(i, env)) == Shape(i)
  {
    var j := FillImpl(i, env);
    forall k | 0 <= k < |i.methods|
      ensures EraseMethod(j.methods[k]) == EraseMethod(i.methods[k])
    {
      var m, n := i.methods[k], j.methods[k];
      assert |n.uses| == |m.uses|;
    }
  }

  /** The placeholder `p` occurs in the body of the skeleton method. */
  predicate MethodMentions(m: Method<Term>, p: Param) {
    exists l :: 0 <= l < |m.uses| && m.uses[l].subject == Hole(p)
  }

  /** The placeholder `p` occurs somewhere in the skeleton impl. */
  predicate Mentions(i: Impl<Term>, p: Param) {
    || Hole(p) in i.traitArgs
    || i.target == Hole(p)
    || exists k :: 0 <= k < |i.methods| && MethodMentions(i.methods[k], p)
  }

  /** An instantiated method depends only on the identifiers of the
      placeholders its skeleton mentions. */
  lemma FillMethodLocal(m: Method<Term>, env1: Env, env2: Env)
    requires forall p :: MethodMentions(m, p) ==> env1(p) == env2(p)
    ensures FillMethod(m, env1) == FillMethod(m, env2)
  {
    forall l | 0 <= l < |m.uses| ensures Fill(m.uses[l].subject, env1) == Fill(m.uses[l].subject, env2) {
      if m.uses[l].subject.Hole? {
        assert MethodMentions(m, m.uses[l].subject.param);
      }
    }
  }

  /** An instantiated impl depends only on the identifiers of the placeholders
      its skeleton mentions. */
  lemma FillImplLocal(i: Impl<Term>, env1: Env, env2: Env)
    requires forall p :: Mentions(i, p) ==> env1(p) == env2(p)
    ensures FillImpl(i, env1) == FillImpl(i, env2)
  {
    forall k | 0 <= k < |i.traitArgs| ensures Fill(i.traitArgs[k], env1) == Fill(i.traitArgs[k], env2) {
      if i.traitArgs[k].Hole? {
        assert Mentions(i, i.traitArgs[k].param);
      }
    }
    if i.target.Hole? {
      assert Mentions(i, i.target.param);
    }
    forall k | 0 <= k < |i.methods| ensures FillMethod(i.methods[k], env1) == FillMethod(i.methods[k], env2) {
      FillMethodLocal(i.methods[k], env1, env2);
    }
  }
}
