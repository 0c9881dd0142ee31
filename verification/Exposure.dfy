/**
 Writer exposure: who may change a mutation unit and how sure that is.  Inserting is a
 join per key; comparing two sets is a preorder that fails closed on anything unknown.
 */
module Exposure {
  datatype Right = CreateFile | CreateDir | DeleteChild | ReplaceChild | Traverse
  datatype Control = ChangeMode | ChangeAcl | ReplaceBinding

  datatype Backend = PosixMode | LinuxPosixAcl | MacOsAcl | Nfs4Acl | UnknownBackend
  datatype Principal = Known(id: nat) | UnknownPrincipal
  datatype Scope = RootBinding | WholeMutationUnit | Directory(id: nat)

  datatype Certainty = Verified | Inferred | Unknown {
    predicate NoWeakerThan(confirmed: Certainty) {
      (Verified? && (confirmed.Verified? || confirmed.Inferred?)) || (Inferred? && confirmed.Inferred?)
    }

    function Least(other: Certainty): Certainty {
      if Unknown? || other.Unknown? then Unknown
      else if Inferred? || other.Inferred? then Inferred
      else Verified
    }
  }

  datatype Key = Key(unit: nat, scope: Scope, principal: Principal, backend: Backend) {
    predicate IsKnown() {
      !principal.UnknownPrincipal? && !backend.UnknownBackend?
    }
  }

  datatype Value = Value(rights: set<Right>, controls: set<Control>, certainty: Certainty) {
    predicate NoWiderThan(confirmed: Value) {
      rights <= confirmed.rights && controls <= confirmed.controls && certainty.NoWeakerThan(confirmed.certainty)
    }

    function Union(other: Value): Value {
      Value(rights + other.rights, controls + other.controls, certainty.Least(other.certainty))
    }
  }

  type Entries = map<Key, Value>

  predicate ScopeWithin(actual: Scope, confirmed: Scope) {
    match (actual, confirmed)
    case (RootBinding, RootBinding) => true
    case (WholeMutationUnit, WholeMutationUnit) => true
    case (Directory(_), WholeMutationUnit) => true
    case (Directory(a), Directory(b)) => a == b
    case _ => false
  }

  function Inserted(m: Entries, k: Key, v: Value): Entries {
    m[k := if k in m then m[k].Union(v) else v]
  }

  predicate CoveredBy(k: Key, v: Value, k': Key, v': Value) {
    && k.IsKnown() && k'.IsKnown()
    && k.unit == k'.unit && k.principal == k'.principal && k.backend == k'.backend
    && ScopeWithin(k.scope, k'.scope) && v.NoWiderThan(v')
  }

  predicate Covered(k: Key, v: Value, confirmed: Entries) {
    exists k' :: k' in confirmed && CoveredBy(k, v, k', confirmed[k'])
  }

  /** Every actual exposure fits within one confirmed exposure. */
  predicate NoWiderThan(actual: Entries, confirmed: Entries) {
    forall k :: k in actual ==> k.IsKnown() && Covered(k, actual[k], confirmed)
  }

  class WriterExposureSet {
    var entries: Entries

    constructor ()
      ensures entries == map[]
    {
      entries := map[];
    }

    method Insert(k: Key, v: Value)
      modifies this
      ensures entries == Inserted(old(entries), k, v)
    {
      if k in entries {
        entries := entries[k := entries[k].Union(v)];
      } else {
        entries := entries[k := v];
      }
    }

    /** Inserts a whole observation, one exposure at a time. */
    method InsertAll(pairs: seq<(Key, Value)>)
      modifies this
      ensures entries == Collected(old(entries), pairs)
    {
      var i := 0;
      while i < |pairs|
        invariant 0 <= i <= |pairs|
        invariant entries == Collected(old(entries), pairs[..i])
      {
        assert pairs[..i + 1][..i] == pairs[..i];
        Insert(pairs[i].0, pairs[i].1);
        i := i + 1;
      }
      assert pairs[..i] == pairs;
    }
  }

  // ----- insertion -----------------------------------------------------------------------------

  function Collected(m: Entries, pairs: seq<(Key, Value)>): Entries {
    if pairs == [] then m
    else Inserted(Collected(m, pairs[..|pairs| - 1]), pairs[|pairs| - 1].0, pairs[|pairs| - 1].1)
  }

  /** What a key ends up with: everything anybody inserted for it, at the least certainty seen. */
  predicate Joins(pairs: seq<(Key, Value)>, k: Key, v: Value) {
    && (forall x :: x in v.rights <==> exists p :: p in pairs && p.0 == k && x in p.1.rights)
    && (forall x :: x in v.controls <==> exists p :: p in pairs && p.0 == k && x in p.1.controls)
    && (v.certainty.Unknown? <==> exists p :: p in pairs && p.0 == k && p.1.certainty.Unknown?)
    && (v.certainty.Verified? <==> forall p :: p in pairs && p.0 == k ==> p.1.certainty.Verified?)
  }

  lemma JoinsUnique(a: seq<(Key, Value)>, b: seq<(Key, Value)>, k: Key, v: Value, v': Value)
    requires forall p :: p in a <==> p in b
    requires Joins(a, k, v) && Joins(b, k, v')
    ensures v == v'
  {
    assert v.rights == v'.rights && v.controls == v'.controls;
  }

  lemma {:induction false} CollectedMeaning(pairs: seq<(Key, Value)>, k: Key)
    ensures k in Collected(map[], pairs) <==> exists p :: p in pairs && p.0 == k
    ensures k in Collected(map[], pairs) ==> Joins(pairs, k, Collected(map[], pairs)[k])
    decreases |pairs|
  {
    if pairs != [] {
      var init, last := pairs[..|pairs| - 1], pairs[|pairs| - 1];
      assert pairs == init + [last];
      CollectedMeaning(init, k);
      if last.0 == k {
        if k in Collected(map[], init) {
          JoinsLast(init, last, k, Collected(map[], init)[k]);
        } else {
          JoinsFirst(init, last, k);
        }
      } else if k in Collected(map[], init) {
        JoinsOther(init, last, k, Collected(map[], init)[k]);
      }
    }
  }

  lemma JoinsLast(init: seq<(Key, Value)>, last: (Key, Value), k: Key, v: Value)
    requires Joins(init, k, v) && last.0 == k
    ensures Joins(init + [last], k, v.Union(last.1))
  {
    var pairs := init + [last];
    assert forall p :: p in pairs <==> p in init || p == last;
  }

  lemma JoinsFirst(init: seq<(Key, Value)>, last: (Key, Value), k: Key)
    requires last.0 == k && forall p :: p in init ==> p.0 != k
    ensures Joins(init + [last], k, last.1)
  {
    var pairs := init + [last];
    assert forall p :: p in pairs <==> p in init || p == last;
  }

  lemma JoinsOther(init: seq<(Key, Value)>, last: (Key, Value), k: Key, v: Value)
    requires Joins(init, k, v) && last.0 != k
    ensures Joins(init + [last], k, v)
  {
    var pairs := init + [last];
    assert forall p :: p in pairs <==> p in init || p == last;
  }

  /** The final set depends only on which exposures were inserted, not on their order or repetition. */
  lemma InsertionOrderIrrelevant(a: seq<(Key, Value)>, b: seq<(Key, Value)>)
    requires forall p :: p in a <==> p in b
    ensures Collected(map[], a) == Collected(map[], b)
  {
    var ma, mb := Collected(map[], a), Collected(map[], b);
    forall k
      ensures k in ma <==> k in mb
      ensures k in ma ==> ma[k] == mb[k]
    {
      CollectedMeaning(a, k);
      CollectedMeaning(b, k);
      if k in ma {
        JoinsUnique(a, b, k, ma[k], mb[k]);
      }
    }
  }

  // ----- comparison ------------------------------------------------------------------------------

  lemma CoveredTransitive(k: Key, v: Value, k1: Key, v1: Value, k2: Key, v2: Value)
    requires CoveredBy(k, v, k1, v1) && CoveredBy(k1, v1, k2, v2)
    ensures CoveredBy(k, v, k2, v2)
  {
  }

  lemma NoWiderTransitive(a: Entries, b: Entries, c: Entries)
    requires NoWiderThan(a, b) && NoWiderThan(b, c)
    ensures NoWiderThan(a, c)
  {
    forall k | k in a
      ensures Covered(k, a[k], c)
    {
      var k1 :| k1 in b && CoveredBy(k, a[k], k1, b[k1]);
      var k2 :| k2 in c && CoveredBy(k1, b[k1], k2, c[k2]);
      CoveredTransitive(k, a[k], k1, b[k1], k2, c[k2]);
    }
  }

  lemma CoversItself(k: Key, v: Value)
    ensures CoveredBy(k, v, k, v) <==> k.IsKnown() && !v.certainty.Unknown?
  {
  }

  /** Reflexive exactly where nothing is unknown. */
  lemma NoWiderReflexive(a: Entries)
    ensures NoWiderThan(a, a) <==> forall k :: k in a ==> k.IsKnown() && !a[k].certainty.Unknown?
  {
    forall k | k in a
      ensures k.IsKnown() && Covered(k, a[k], a) <==> k.IsKnown() && !a[k].certainty.Unknown?
    {
      CoversItself(k, a[k]);
    }
  }

  /** More actual exposure never turns a refusal into an acceptance. */
  lemma WiderActualStaysRefused(actual: Entries, confirmed: Entries, k: Key, v: Value)
    requires NoWiderThan(Inserted(actual, k, v), confirmed)
    ensures NoWiderThan(actual, confirmed)
  {
    var more := Inserted(actual, k, v);
    forall q | q in actual
      ensures q.IsKnown() && Covered(q, actual[q], confirmed)
    {
      assert q in more;
      var k' :| k' in confirmed && CoveredBy(q, more[q], k', confirmed[k']);
      assert CoveredBy(q, actual[q], k', confirmed[k']);
    }
  }

  /**
   More confirmed exposure never turns an acceptance into a refusal, unless the merged
   certainty becomes unknown.
   */
  lemma WiderConfirmedStaysAccepted(actual: Entries, confirmed: Entries, k: Key, v: Value)
    requires NoWiderThan(actual, confirmed)
    requires k in confirmed ==> !Inserted(confirmed, k, v)[k].certainty.Unknown?
    ensures NoWiderThan(actual, Inserted(confirmed, k, v))
  {
    var more := Inserted(confirmed, k, v);
    forall q | q in actual
      ensures Covered(q, actual[q], more)
    {
      var k' :| k' in confirmed && CoveredBy(q, actual[q], k', confirmed[k']);
      assert k' in more && CoveredBy(q, actual[q], k', more[k']);
    }
  }

  /** The exception, exactly: an entry merged into uncertainty no longer covers anything. */
  lemma UnknownMergeForgets(actual: Entries, confirmed: Entries, k: Key, v: Value)
    requires Inserted(confirmed, k, v)[k].certainty.Unknown?
    ensures NoWiderThan(actual, Inserted(confirmed, k, v)) <==> NoWiderThan(actual, confirmed - {k})
  {
    var more, rest := Inserted(confirmed, k, v), confirmed - {k};
    forall q | q in actual
      ensures Covered(q, actual[q], more) <==> Covered(q, actual[q], rest)
    {
      if Covered(q, actual[q], more) {
        var k' :| k' in more && CoveredBy(q, actual[q], k', more[k']);
        assert k' in rest && CoveredBy(q, actual[q], k', rest[k']);
      }
      if Covered(q, actual[q], rest) {
        var k' :| k' in rest && CoveredBy(q, actual[q], k', rest[k']);
        assert k' in more && CoveredBy(q, actual[q], k', more[k']);
      }
    }
  }

  // ----- what an exposure says ----------------------------------------------------------------------

  /** The things a scope can reach: the root's binding, the unit as a whole, its directories. */
  datatype Spot = Binding | Whole | Dir(id: nat)

  predicate Reaches(scope: Scope, spot: Spot) {
    match scope
    case RootBinding => spot == Binding
    case WholeMutationUnit => spot != Binding
    case Directory(id) => spot == Dir(id)
  }

  datatype Power = Exposed | May(right: Right) | Steers(control: Control)

  /** Under entry `k`, `principal` has `power` over `spot` of `unit` as `backend` grants it. */
  predicate Grants(k: Key, v: Value, unit: nat, spot: Spot, principal: Principal, backend: Backend, power: Power) {
    && k.unit == unit && k.principal == principal && k.backend == backend && Reaches(k.scope, spot)
    && match power
       case Exposed => true
       case May(right) => right in v.rights
       case Steers(control) => control in v.controls
  }

  function Strength(c: Certainty): nat {
    match c case Unknown => 0 case Inferred => 1 case Verified => 2
  }

  function SpotOf(scope: Scope): (spot: Spot)
    ensures Reaches(scope, spot)
  {
    match scope case RootBinding => Binding case WholeMutationUnit => Whole case Directory(id) => Dir(id)
  }

  lemma WithinMeaning(actual: Scope, confirmed: Scope)
    ensures ScopeWithin(actual, confirmed) <==> forall spot :: Reaches(actual, spot) ==> Reaches(confirmed, spot)
  {
    if forall spot :: Reaches(actual, spot) ==> Reaches(confirmed, spot) {
      assert Reaches(actual, SpotOf(actual));
    }
  }

  ghost predicate GrantsNoMore(k: Key, v: Value, k': Key, v': Value) {
    forall unit, spot, principal, backend, power ::
      Grants(k, v, unit, spot, principal, backend, power) ==> Grants(k', v', unit, spot, principal, backend, power)
  }

  lemma NoMoreFields(k: Key, v: Value, k': Key, v': Value)
    requires GrantsNoMore(k, v, k', v')
    ensures k.unit == k'.unit && k.principal == k'.principal && k.backend == k'.backend
    ensures ScopeWithin(k.scope, k'.scope) && v.rights <= v'.rights && v.controls <= v'.controls
  {
    var spot := SpotOf(k.scope);
    assert Grants(k, v, k.unit, spot, k.principal, k.backend, Exposed);
    forall spot | Reaches(k.scope, spot)
      ensures Reaches(k'.scope, spot)
    {
      assert Grants(k, v, k.unit, spot, k.principal, k.backend, Exposed);
    }
    WithinMeaning(k.scope, k'.scope);
    forall right | right in v.rights
      ensures right in v'.rights
    {
      assert Grants(k, v, k.unit, spot, k.principal, k.backend, May(right));
    }
    forall control | control in v.controls
      ensures control in v'.controls
    {
      assert Grants(k, v, k.unit, spot, k.principal, k.backend, Steers(control));
    }
  }

  /** One entry covers another exactly when both are known, it grants all the other does, at a certainty no stronger. */
  lemma CoverMeaning(k: Key, v: Value, k': Key, v': Value)
    ensures CoveredBy(k, v, k', v') <==>
              && k.IsKnown() && k'.IsKnown() && GrantsNoMore(k, v, k', v')
              && 0 < Strength(v'.certainty) <= Strength(v.certainty)
  {
    if GrantsNoMore(k, v, k', v') {
      NoMoreFields(k, v, k', v');
    }
    WithinMeaning(k.scope, k'.scope);
  }

  /** Somebody's power in a whole set of exposures. */
  predicate Granted(m: Entries, unit: nat, spot: Spot, principal: Principal, backend: Backend, power: Power) {
    exists k :: k in m && Grants(k, m[k], unit, spot, principal, backend, power)
  }

  /** An accepted set gives nobody a power that was not confirmed, and all of it to known parties. */
  lemma AcceptedIsConfirmed(actual: Entries, confirmed: Entries, unit: nat, spot: Spot, principal: Principal,
                            backend: Backend, power: Power)
    requires NoWiderThan(actual, confirmed) && Granted(actual, unit, spot, principal, backend, power)
    ensures Granted(confirmed, unit, spot, principal, backend, power)
    ensures !principal.UnknownPrincipal? && !backend.UnknownBackend?
  {
    var k :| k in actual && Grants(k, actual[k], unit, spot, principal, backend, power);
    var k' :| k' in confirmed && CoveredBy(k, actual[k], k', confirmed[k']);
    CoverMeaning(k, actual[k], k', confirmed[k']);
    assert Grants(k', confirmed[k'], unit, spot, principal, backend, power);
  }
}
