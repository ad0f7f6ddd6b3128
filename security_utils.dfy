/**
 * `isSecuritySchemeIdValid`: may a request go out under a security scheme without any
 * scope? It may when no security list is declared, or when some Security Requirement
 * Object of the list (section 4.8.30 of the OpenAPI Specification 3.1.0) names the scheme
 * with an empty scope array.
 */
module SecurityUtils {
  import opened Wrappers
  import opened JsValues

  /** `o.hasOwnProperty(id)`: `o` is an object with an own property named `id`. */
  predicate HasOwn(o: Json, id: string) {
    o.Obj? && exists i :: 0 <= i < |o.fields| && o.fields[i].key == id
  }

  /** The requirement object lists scheme `id` with an empty array of scopes. */
  predicate GrantsWithoutScopes(o: Json, id: string) {
    HasOwn(o, id) && Prop(o, id).Arr? && |Prop(o, id).elems| == 0
  }

  /**
   * The scan of `some` gets past the first `k` entries: each is defined (calling
   * `hasOwnProperty` on it does not throw) and does not grant `id`.
   */
  predicate ScansPast(security: seq<Json>, id: string, k: int)
    requires 0 <= k <= |security|
  {
    forall j :: 0 <= j < k ==> !security[j].Undefined? && !GrantsWithoutScopes(security[j], id)
  }

  /**
   * `security.some(o => GrantsWithoutScopes(o, id))`, scanning from the front: `Some(true)`
   * at the first granting entry, `None` at an `undefined` or `null` entry met before one
   * (the `TypeError` thrown by `hasOwnProperty`), `Some(false)` when the list runs out.
   */
  function AnyGrants(security: seq<Json>, id: string): (r: Option<bool>)
    ensures r == Some(true) <==>
      exists k :: 0 <= k < |security| && ScansPast(security, id, k) && GrantsWithoutScopes(security[k], id)
    ensures r.None? <==>
      exists k :: 0 <= k < |security| && ScansPast(security, id, k) && security[k].Undefined?
    ensures r == Some(false) <==> ScansPast(security, id, |security|)
    decreases |security|
  {
    if |security| == 0 then Some(false)
    else if security[0].Undefined? then (assert ScansPast(security, id, 0); None)
    else if GrantsWithoutScopes(security[0], id) then (assert ScansPast(security, id, 0); Some(true))
    else
      var r := AnyGrants(security[1..], id);
      ScansPastShift(security, id);
      r
  }

  /** Getting past an entry that neither throws nor grants moves the scan on to the rest of the list. */
  lemma ScansPastShift(security: seq<Json>, id: string)
    requires |security| > 0 && !security[0].Undefined? && !GrantsWithoutScopes(security[0], id)
    ensures forall k :: 0 <= k < |security| ==>
      (ScansPast(security, id, k + 1) <==> ScansPast(security[1..], id, k))
  {
    forall k | 0 <= k < |security|
      ensures ScansPast(security, id, k + 1) <==> ScansPast(security[1..], id, k)
    {
      if ScansPast(security[1..], id, k) {
        forall j | 0 <= j < k + 1
          ensures !security[j].Undefined? && !GrantsWithoutScopes(security[j], id)
        {
          if j > 0 {
            assert security[j] == security[1..][j - 1];
          }
        }
      }
    }
  }

  /** No entry of the list is `undefined` or `null`. */
  predicate AllDefined(security: seq<Json>) {
    forall k :: 0 <= k < |security| ==> !security[k].Undefined?
  }

  /** Some requirement object of the list grants `id` without scopes. */
  predicate SomeGrants(security: seq<Json>, id: string) {
    exists k :: 0 <= k < |security| && GrantsWithoutScopes(security[k], id)
  }

  /** Over a list without `undefined` or `null` entries the scan never throws and answers whether some entry grants. */
  lemma {:induction false} DefinedListAnswers(security: seq<Json>, id: string)
    requires AllDefined(security)
    ensures AnyGrants(security, id) == Some(SomeGrants(security, id))
    decreases |security|
  {
    if |security| > 0 && !GrantsWithoutScopes(security[0], id) {
      var rest := security[1..];
      assert forall k :: 0 <= k < |rest| ==> rest[k] == security[k + 1];
      DefinedListAnswers(rest, id);
      if SomeGrants(security, id) {
        var k :| 0 <= k < |security| && GrantsWithoutScopes(security[k], id);
        assert rest[k - 1] == security[k];
      }
    }
  }

  /**
   * The predicate itself; `None` for the list is an absent (`undefined` or `null`) security
   * list, `None` for the result is the `TypeError` the scan throws.
   */
  function IsSecuritySchemeIdValid(security: Option<seq<Json>>, id: string): (r: Option<bool>)
    ensures security.None? ==> r == Some(true)
    ensures security == Some([]) ==> r == Some(false)
    ensures r.None? <==> (security.Some? &&
      exists k :: 0 <= k < |security.value| && ScansPast(security.value, id, k) && security.value[k].Undefined?)
    ensures r == Some(true) <==> (security.None? ||
      exists k :: 0 <= k < |security.value| && ScansPast(security.value, id, k)
        && GrantsWithoutScopes(security.value[k], id))
  {
    match security
    case None => Some(true)
    case Some(list) => AnyGrants(list, id)
  }

  /** One requirement object that lists the scheme with scopes, or with anything but an array, does not grant it. */
  lemma ScopedEntryDoesNotGrant(o: Json, id: string)
    requires !(Prop(o, id).Arr? && |Prop(o, id).elems| == 0)
    ensures IsSecuritySchemeIdValid(Some([o]), id) == if o.Undefined? then None else Some(false)
  {
    assert !GrantsWithoutScopes(o, id);
    assert [o][1..] == [];
  }

  /** A `null` entry before the granting one throws; after it, the scan has already stopped. */
  lemma NullEntryThrowsOnlyBeforeGrant(id: string)
    ensures IsSecuritySchemeIdValid(Some([Undefined, Obj([Field(id, Arr([]))])]), id).None?
    ensures IsSecuritySchemeIdValid(Some([Obj([Field(id, Arr([]))]), Undefined]), id) == Some(true)
  {
    var g := Obj([Field(id, Arr([]))]);
    assert g.fields[0].key == id;
    assert GrantsWithoutScopes(g, id);
    assert ScansPast([g, Undefined], id, 0);
  }

  /** Scanning a concatenation scans the first list and, only when it runs out, the second. */
  lemma {:induction false} ConcatScansInOrder(a: seq<Json>, b: seq<Json>, id: string)
    ensures AnyGrants(a + b, id) == if AnyGrants(a, id) == Some(false) then AnyGrants(b, id) else AnyGrants(a, id)
    decreases |a|
  {
    if |a| == 0 {
      assert a + b == b;
    } else {
      assert (a + b)[0] == a[0];
      assert (a + b)[1..] == a[1..] + b;
      ConcatScansInOrder(a[1..], b, id);
    }
  }

  /** Without `undefined` or `null` entries, a concatenation grants an id exactly when one of the lists does. */
  lemma ConcatValidIff(a: seq<Json>, b: seq<Json>, id: string)
    requires AllDefined(a) && AllDefined(b)
    ensures IsSecuritySchemeIdValid(Some(a + b), id) == Some(true) <==>
      IsSecuritySchemeIdValid(Some(a), id) == Some(true) || IsSecuritySchemeIdValid(Some(b), id) == Some(true)
  {
    ConcatScansInOrder(a, b, id);
    DefinedListAnswers(a, id);
    DefinedListAnswers(b, id);
  }

  /** Without `undefined` or `null` entries, the order of the requirement objects does not matter. */
  lemma OrderIrrelevant(a: seq<Json>, b: seq<Json>, id: string)
    requires multiset(a) == multiset(b) && AllDefined(a)
    ensures IsSecuritySchemeIdValid(Some(a), id) == IsSecuritySchemeIdValid(Some(b), id)
  {
    forall k | 0 <= k < |b| ensures !b[k].Undefined? {
      assert b[k] in multiset(a);
    }
    DefinedListAnswers(a, id);
    DefinedListAnswers(b, id);
    if SomeGrants(a, id) {
      var k :| 0 <= k < |a| && GrantsWithoutScopes(a[k], id);
      assert a[k] in multiset(b);
      var j :| 0 <= j < |b| && b[j] == a[k];
    }
    if SomeGrants(b, id) {
      var k :| 0 <= k < |b| && GrantsWithoutScopes(b[k], id);
      assert b[k] in multiset(a);
      var j :| 0 <= j < |a| && a[j] == b[k];
    }
  }
}
