/** Dependency invalidation across request revisions (domain/invalidation.py). */
module Invalidation {
  datatype WorkProduct = WorkProduct(id: string, outputKey: string, dependsOn: set<string>)

  datatype InvalidatedProduct =
    InvalidatedProduct(productId: string, outputKey: string, reasonDependencies: set<string>)

  datatype InvalidationPlan =
    InvalidationPlan(retainedProductIds: seq<string>, invalidated: seq<InvalidatedProduct>)

  // ----- The declarative meaning: a least closed set of keys -----

  /** A product is affected by a set of invalid keys when it depends on one of them. */
  predicate Affected(p: WorkProduct, keys: set<string>) {
    p.dependsOn * keys != {}
  }

  /** The output key of every affected product is itself invalid. */
  ghost predicate Closed(products: set<WorkProduct>, keys: set<string>) {
    forall p :: p in products && Affected(p, keys) ==> p.outputKey in keys
  }

  ghost predicate IsLeastClosed(products: set<WorkProduct>, changed: set<string>, keys: set<string>) {
    && changed <= keys
    && Closed(products, keys)
    && forall other :: changed <= other && Closed(products, other) ==> keys <= other
  }

  ghost function OutputKeys(products: set<WorkProduct>): set<string> {
    set p | p in products :: p.outputKey
  }

  /** The keys that become invalid when `changed` does. */
  ghost function Closure(products: set<WorkProduct>, changed: set<string>): (keys: set<string>)
    ensures IsLeastClosed(products, changed, keys)
    decreases |OutputKeys(products) - changed|
  {
    if Closed(products, changed) then changed
    else
      var p :| p in products && Affected(p, changed) && p.outputKey !in changed;
      assert p.outputKey in OutputKeys(products) - changed;
      assert OutputKeys(products) - (changed + {p.outputKey})
          == (OutputKeys(products) - changed) - {p.outputKey};
      Closure(products, changed + {p.outputKey})
  }

  function Elements<T>(s: seq<T>): set<T> {
    set x | x in s
  }

  /** The products, in order, whose being affected is `affected`. */
  function Select(products: seq<WorkProduct>, keys: set<string>, affected: bool): seq<WorkProduct> {
    if products == [] then []
    else if Affected(products[0], keys) == affected then [products[0]] + Select(products[1..], keys, affected)
    else Select(products[1..], keys, affected)
  }

  function Ids(products: seq<WorkProduct>): (ids: seq<string>)
    ensures |ids| == |products|
    ensures forall i :: 0 <= i < |products| ==> ids[i] == products[i].id
  {
    seq(|products|, i requires 0 <= i < |products| => products[i].id)
  }

  // ----- Selection -----

  lemma {:induction false} SelectAppend(a: seq<WorkProduct>, b: seq<WorkProduct>, keys: set<string>, affected: bool)
    ensures Select(a + b, keys, affected) == Select(a, keys, affected) + Select(b, keys, affected)
  {
    if a == [] {
      assert a + b == b;
    } else {
      assert (a + b)[0] == a[0] && (a + b)[1..] == a[1..] + b;
      SelectAppend(a[1..], b, keys, affected);
    }
  }

  lemma {:induction false} SelectMembers(products: seq<WorkProduct>, keys: set<string>, affected: bool)
    ensures forall p :: p in Select(products, keys, affected) <==> p in products && Affected(p, keys) == affected
  {
    if products != [] {
      SelectMembers(products[1..], keys, affected);
      assert products == [products[0]] + products[1..];
    }
  }

  lemma {:induction false} SelectCounts(products: seq<WorkProduct>, keys: set<string>, affected: bool)
    ensures forall p :: multiset(Select(products, keys, affected))[p]
                     == if Affected(p, keys) == affected then multiset(products)[p] else 0
  {
    if products != [] {
      SelectCounts(products[1..], keys, affected);
      assert products == [products[0]] + products[1..];
    }
  }

  lemma {:induction false} SelectAll(products: seq<WorkProduct>, keys: set<string>, affected: bool)
    requires forall p :: p in products ==> Affected(p, keys) == affected
    ensures Select(products, keys, affected) == products
  {
    if products != [] {
      SelectAll(products[1..], keys, affected);
      assert products == [products[0]] + products[1..];
    }
  }

  /** Taking an affected product out of the worklist leaves the products to retain as they were. */
  lemma SelectSkip(kept: seq<WorkProduct>, p: WorkProduct, rest: seq<WorkProduct>, keys: set<string>)
    requires Affected(p, keys)
    ensures Select(kept + [p] + rest, keys, false) == Select(kept + rest, keys, false)
  {
    SelectAppend(kept + [p], rest, keys, false);
    SelectAppend(kept, [p], keys, false);
    SelectAppend(kept, rest, keys, false);
    assert Select([p], keys, false) == [];
  }

  lemma MultisetMiddle<T>(a: seq<T>, x: T, b: seq<T>)
    ensures multiset(a + [x] + b) == multiset{x} + multiset(a + b)
  {}

  // ----- The algorithm -----

  /** The i-th entry records product `taken[i]`, and its reasons were invalid when it was taken. */
  ghost predicate Records(entries: seq<InvalidatedProduct>, taken: seq<WorkProduct>, changed: set<string>) {
    && |entries| == |taken|
    && forall i :: 0 <= i < |entries| ==>
         && entries[i].productId == taken[i].id
         && entries[i].outputKey == taken[i].outputKey
         && entries[i].reasonDependencies == taken[i].dependsOn * InvalidAfter(taken[..i], changed)
         && entries[i].reasonDependencies != {}
  }

  /** The keys that are invalid once the products in `taken` have been invalidated. */
  ghost function InvalidAfter(taken: seq<WorkProduct>, changed: set<string>): set<string> {
    changed + OutputKeys(Elements(taken))
  }

  lemma InvalidAfterStep(taken: seq<WorkProduct>, p: WorkProduct, changed: set<string>)
    ensures InvalidAfter(taken + [p], changed) == InvalidAfter(taken, changed) + {p.outputKey}
  {
    assert Elements(taken + [p]) == Elements(taken) + {p};
  }

  lemma RecordsStep(entries: seq<InvalidatedProduct>, taken: seq<WorkProduct>, changed: set<string>,
                    entry: InvalidatedProduct, p: WorkProduct)
    requires Records(entries, taken, changed)
    requires Affected(p, InvalidAfter(taken, changed))
    requires entry == InvalidatedProduct(p.id, p.outputKey, p.dependsOn * InvalidAfter(taken, changed))
    ensures Records(entries + [entry], taken + [p], changed)
  {
    assert (taken + [p])[..|taken|] == taken;
    forall i | 0 <= i < |entries|
      ensures (entries + [entry])[i] == entries[i] && (taken + [p])[..i] == taken[..i]
    {}
  }

  /** Once a pass makes no progress the invalid keys are exactly the closure, and the products that
      were taken are exactly the affected ones. */
  lemma FixpointIsClosure(products: seq<WorkProduct>, changed: set<string>, taken: seq<WorkProduct>,
                          pending: seq<WorkProduct>)
    requires InvalidAfter(taken, changed) <= Closure(Elements(products), changed)
    requires forall p :: p in taken ==> Affected(p, Closure(Elements(products), changed))
    requires multiset(taken) + multiset(pending) == multiset(products)
    requires forall p :: p in pending ==> !Affected(p, InvalidAfter(taken, changed))
    ensures InvalidAfter(taken, changed) == Closure(Elements(products), changed)
    ensures multiset(taken) == multiset(Select(products, Closure(Elements(products), changed), true))
  {
    var keys := InvalidAfter(taken, changed);
    forall p | p in Elements(products) && Affected(p, keys)
      ensures p.outputKey in keys
    {
      assert p in multiset(products);
      assert p in multiset(taken) || p in multiset(pending);
    }
    assert Closed(Elements(products), keys);
    SelectCounts(products, keys, true);
    forall p
      ensures multiset(taken)[p] == multiset(Select(products, keys, true))[p]
    {
      assert multiset(products)[p] == multiset(taken)[p] + multiset(pending)[p];
      assert p in multiset(taken) ==> p in taken;
      assert p in multiset(pending) ==> p in pending;
    }
  }

  /** The worklist during a pass: what was kept so far and what is still to be visited. */
  ghost predicate Pass(products: seq<WorkProduct>, changed: set<string>, invalid: set<string>,
                       invalidated: seq<InvalidatedProduct>, taken: seq<WorkProduct>, worklist: seq<WorkProduct>)
  {
    var keys := Closure(Elements(products), changed);
    && invalid == InvalidAfter(taken, changed) <= keys
    && Records(invalidated, taken, changed)
    && (forall p :: p in taken ==> Affected(p, keys))
    && Select(worklist, keys, false) == Select(products, keys, false)
    && multiset(taken) + multiset(worklist) == multiset(products)
  }

  lemma PassTakes(products: seq<WorkProduct>, changed: set<string>, invalid: set<string>,
                  invalidated: seq<InvalidatedProduct>, taken: seq<WorkProduct>,
                  kept: seq<WorkProduct>, p: WorkProduct, rest: seq<WorkProduct>)
    requires Pass(products, changed, invalid, invalidated, taken, kept + [p] + rest)
    requires Affected(p, invalid)
    ensures Pass(products, changed, invalid + {p.outputKey},
                 invalidated + [InvalidatedProduct(p.id, p.outputKey, p.dependsOn * invalid)],
                 taken + [p], kept + rest)
  {
    var keys := Closure(Elements(products), changed);
    MultisetMiddle(kept, p, rest);
    assert p in Elements(products) by { assert p in multiset(products); }
    assert Affected(p, keys);
    SelectSkip(kept, p, rest, keys);
    InvalidAfterStep(taken, p, changed);
    RecordsStep(invalidated, taken, changed, InvalidatedProduct(p.id, p.outputKey, p.dependsOn * invalid), p);
  }

  /** One pass of the inner loop of `plan_invalidation` over the pending products. */
  method RunPass(ghost products: seq<WorkProduct>, ghost changed: set<string>, pending: seq<WorkProduct>,
                 invalidated: seq<InvalidatedProduct>, invalid: set<string>, ghost taken: seq<WorkProduct>)
      returns (pending': seq<WorkProduct>, invalidated': seq<InvalidatedProduct>, invalid': set<string>,
               madeProgress: bool, ghost taken': seq<WorkProduct>)
    requires Pass(products, changed, invalid, invalidated, taken, pending)
    ensures Pass(products, changed, invalid', invalidated', taken', pending')
    ensures if madeProgress then |pending'| < |pending|
            else |pending'| == |pending| && forall p :: p in pending' ==> !Affected(p, invalid')
  {
    hide Pass;
    pending', invalidated', invalid', madeProgress, taken' := [], invalidated, invalid, false, taken;
    var i := 0;
    assert pending' + pending[i..] == pending;
    while i < |pending|
      invariant 0 <= i <= |pending|
      invariant Pass(products, changed, invalid', invalidated', taken', pending' + pending[i..])
      invariant if madeProgress then |pending'| < i
                else |pending'| == i && forall p :: p in pending' ==> !Affected(p, invalid')
    {
      var product := pending[i];
      assert pending' + pending[i..] == pending' + [product] + pending[i + 1..];
      var matched := product.dependsOn * invalid';
      if matched != {} {
        PassTakes(products, changed, invalid', invalidated', taken', pending', product, pending[i + 1..]);
        invalidated' := invalidated' + [InvalidatedProduct(product.id, product.outputKey, matched)];
        taken' := taken' + [product];
        invalid' := invalid' + {product.outputKey};
        madeProgress := true;
      } else {
        pending' := pending' + [product];
      }
      i := i + 1;
    }
    assert pending' + pending[i..] == pending';
  }

  /** `plan_invalidation`: repeated passes over a shrinking worklist. The plan is the least closed
      set whatever the order, the cycles or the duplicate keys of the input. */
  method PlanInvalidation(products: seq<WorkProduct>, changedDependencies: set<string>)
      returns (plan: InvalidationPlan, ghost taken: seq<WorkProduct>, ghost passes: nat)
    ensures plan.retainedProductIds
         == Ids(Select(products, Closure(Elements(products), changedDependencies), false))
    ensures multiset(taken)
         == multiset(Select(products, Closure(Elements(products), changedDependencies), true))
    ensures Records(plan.invalidated, taken, changedDependencies)
    ensures InvalidAfter(taken, changedDependencies) == Closure(Elements(products), changedDependencies)
    ensures passes <= |products|
  {
    var invalidDependencies := changedDependencies;
    var invalidated: seq<InvalidatedProduct> := [];
    var pending := products;
    taken, passes := [], 0;
    var madeProgress := true;
    while pending != [] && madeProgress
      invariant Pass(products, changedDependencies, invalidDependencies, invalidated, taken, pending)
      invariant !madeProgress ==> forall p :: p in pending ==> !Affected(p, invalidDependencies)
      invariant passes <= |products|
      invariant madeProgress ==> passes + |pending| <= |products|
      decreases |pending|, madeProgress
    {
      pending, invalidated, invalidDependencies, madeProgress, taken :=
        RunPass(products, changedDependencies, pending, invalidated, invalidDependencies, taken);
      passes := passes + 1;
    }
    FixpointIsClosure(products, changedDependencies, taken, pending);
    SelectAll(pending, invalidDependencies, false);
    plan := InvalidationPlan(Ids(pending), invalidated);
  }

  // ----- Consequences -----

  lemma {:induction false} TakenAreAffected(products: seq<WorkProduct>, keys: set<string>, taken: seq<WorkProduct>)
    requires multiset(taken) == multiset(Select(products, keys, true))
    ensures forall p :: p in taken <==> p in Elements(products) && Affected(p, keys)
  {
    SelectMembers(products, keys, true);
    forall p ensures p in taken <==> p in Select(products, keys, true) {
      assert p in taken <==> p in multiset(taken);
      assert p in Select(products, keys, true) <==> p in multiset(Select(products, keys, true));
    }
  }

  lemma {:induction false} RecordsList(entries: seq<InvalidatedProduct>, taken: seq<WorkProduct>, changed: set<string>)
    requires Records(entries, taken, changed)
    ensures (set e | e in entries :: e.productId) == (set p | p in taken :: p.id)
    ensures (set e | e in entries :: e.outputKey) == (set p | p in taken :: p.outputKey)
  {
    hide InvalidAfter;
    forall p | p in taken
      ensures exists e :: e in entries && e.productId == p.id && e.outputKey == p.outputKey
    {
      var i :| 0 <= i < |taken| && taken[i] == p;
      assert entries[i] in entries;
    }
    forall e | e in entries ensures exists p :: p in taken && p.id == e.productId && p.outputKey == e.outputKey {
      var i :| 0 <= i < |entries| && entries[i] == e;
      assert taken[i] in taken;
    }
  }

  /** The ids and the output keys listed in a plan are those of the affected products. */
  lemma {:induction false} PlanLists(products: seq<WorkProduct>, changed: set<string>,
                                     entries: seq<InvalidatedProduct>, taken: seq<WorkProduct>)
    requires Records(entries, taken, changed)
    requires InvalidAfter(taken, changed) == Closure(Elements(products), changed)
    requires multiset(taken) == multiset(Select(products, Closure(Elements(products), changed), true))
    ensures (set e | e in entries :: e.productId)
         == (set p | p in Elements(products) && Affected(p, Closure(Elements(products), changed)) :: p.id)
    ensures changed + (set e | e in entries :: e.outputKey) == Closure(Elements(products), changed)
  {
    TakenAreAffected(products, Closure(Elements(products), changed), taken);
    RecordsList(entries, taken, changed);
    hide Records, Select, Closure, Affected;
  }

  lemma SameElements<T>(a: seq<T>, b: seq<T>)
    requires multiset(a) == multiset(b)
    ensures Elements(a) == Elements(b)
  {
    forall x ensures x in a <==> x in b { assert x in multiset(a) <==> x in multiset(b); }
  }

  /** Input order does not matter: permuted inputs have the same invalid keys, and invalidate and
      retain the same products. */
  lemma OrderIndependent(a: seq<WorkProduct>, b: seq<WorkProduct>, changed: set<string>, affected: bool)
    requires multiset(a) == multiset(b)
    ensures Closure(Elements(a), changed) == Closure(Elements(b), changed)
    ensures multiset(Select(a, Closure(Elements(a), changed), affected))
         == multiset(Select(b, Closure(Elements(b), changed), affected))
  {
    SameElements(a, b);
    SelectCounts(a, Closure(Elements(a), changed), affected);
    SelectCounts(b, Closure(Elements(a), changed), affected);
  }

  /** Sequential invalidations compose: planning `first`, then `second` on what was retained, drops
      and keeps exactly what planning both at once does. */
  lemma SequentialInvalidationsCompose(products: seq<WorkProduct>, first: set<string>, second: set<string>)
    ensures var keysFirst := Closure(Elements(products), first);
            var kept := Select(products, keysFirst, false);
            var keysSecond := Closure(Elements(kept), second);
            var keysBoth := Closure(Elements(products), first + second);
            && keysBoth == keysFirst + keysSecond
            && Select(products, keysBoth, false) == Select(kept, keysSecond, false)
            && multiset(Select(products, keysBoth, true))
               == multiset(Select(products, keysFirst, true)) + multiset(Select(kept, keysSecond, true))
  {
    var keysFirst := Closure(Elements(products), first);
    var kept := Select(products, keysFirst, false);
    var keysSecond := Closure(Elements(kept), second);
    var keysBoth := Closure(Elements(products), first + second);
    SelectMembers(products, keysFirst, false);
    assert Closed(Elements(products), keysFirst + keysSecond) by {
      forall p | p in Elements(products) && Affected(p, keysFirst + keysSecond)
        ensures p.outputKey in keysFirst + keysSecond
      {
        if !Affected(p, keysFirst) {
          assert p in Elements(kept) && Affected(p, keysSecond);
        }
      }
    }
    assert keysBoth <= keysFirst + keysSecond;
    assert keysFirst <= keysBoth;
    assert Closed(Elements(kept), keysBoth);
    assert keysSecond <= keysBoth;
    SelectTwice(products, keysFirst, keysSecond);
    SelectCounts(products, keysFirst, true);
    SelectCounts(products, keysFirst, false);
    SelectCounts(products, keysFirst + keysSecond, true);
    SelectCounts(kept, keysSecond, true);
    AffectedUnion(keysFirst, keysSecond);
  }

  lemma AffectedUnion(a: set<string>, b: set<string>)
    ensures forall p :: Affected(p, a + b) <==> Affected(p, a) || Affected(p, b)
  {
    forall p: WorkProduct ensures Affected(p, a + b) <==> Affected(p, a) || Affected(p, b) {
      assert p.dependsOn * (a + b) == p.dependsOn * a + p.dependsOn * b;
    }
  }

  lemma {:induction false} SelectTwice(products: seq<WorkProduct>, a: set<string>, b: set<string>)
    ensures Select(products, a + b, false) == Select(Select(products, a, false), b, false)
  {
    if products != [] {
      SelectTwice(products[1..], a, b);
      AffectedUnion(a, b);
      SelectAppend([products[0]], Select(products[1..], a, false), b, false);
    }
  }
}
