/**
 * ObjectVector: a homogeneous collection built from a prototype (a
 * constructor function) and a variable number of items.  Construction is
 * all-or-nothing: if every item is an instance of the prototype the vector
 * holds the items in argument order, otherwise construction throws and no
 * vector exists.
 */
module ObjectVector {

  /** The identity of a JavaScript constructor function. */
  type Ctor = nat

  /** `Object`, the constructor at the root of every prototype chain. */
  const OBJECT: Ctor := 0

  /**
   * A JavaScript object, reduced to what `instanceof` inspects: the
   * constructors whose `prototype` lies on its prototype chain, nearest
   * first, together with the object's own payload.
   */
  datatype JsObject = JsObject(protoChain: seq<Ctor>, testData: string)

  /** `x instanceof c`. */
  predicate InstanceOf(x: JsObject, c: Ctor)
  {
    c in x.protoChain
  }

  datatype Option<T> = None | Some(value: T)

  /** A constructed vector: its prototype and its read-only `collection`. */
  datatype Vector = Vector(proto: Ctor, collection: seq<JsObject>)

  /** Whether every item of `items` is an instance of `proto`. */
  predicate AllInstancesOf(items: seq<JsObject>, proto: Ctor)
  {
    forall i :: 0 <= i < |items| ==> InstanceOf(items[i], proto)
  }

  /**
   * The constructor's validation pass: walks the items from the first to
   * the last and rejects the argument list at the first item that is not an
   * instance of `proto`.
   */
  function Validate(proto: Ctor, items: seq<JsObject>): (ok: bool)
    ensures ok <==> AllInstancesOf(items, proto)
  {
    if items == [] then true
    else if !InstanceOf(items[0], proto) then false
    else
      var rest := Validate(proto, items[1..]);
      assert AllInstancesOf(items, proto) <==> rest by {
        if rest {
          forall i | 0 <= i < |items| ensures InstanceOf(items[i], proto) {
            if i > 0 { assert items[i] == items[1..][i - 1]; }
          }
        } else {
          var j :| 0 <= j < |items[1..]| && !InstanceOf(items[1..][j], proto);
          assert items[j + 1] == items[1..][j];
        }
      }
      rest
  }

  /**
   * `new ObjectVector(proto, ...items)`: `None` stands for the thrown
   * Error, after which no vector exists.
   */
  function New(proto: Ctor, items: seq<JsObject>): (r: Option<Vector>)
    ensures r.Some? <==> AllInstancesOf(items, proto)
    ensures r.Some? ==> r.value.proto == proto && r.value.collection == items
  {
    if Validate(proto, items) then Some(Vector(proto, items)) else None
  }

  /**
   * One item that is not an instance of the prototype, wherever it stands,
   * makes the whole construction fail.
   */
  lemma AnyMismatchRejects(proto: Ctor, items: seq<JsObject>, k: nat)
    requires k < |items| && !InstanceOf(items[k], proto)
    ensures New(proto, items) == None
  {
  }

  /**
   * Validation is not a prefix check: valid leading items do not save a
   * list whose last item is invalid.
   */
  lemma LastItemIsChecked(proto: Ctor, valid: seq<JsObject>, last: JsObject)
    requires AllInstancesOf(valid, proto) && !InstanceOf(last, proto)
    ensures New(proto, valid).Some?
    ensures New(proto, valid + [last]) == None
  {
    AnyMismatchRejects(proto, valid + [last], |valid|);
  }

  /** Every element of a successfully built collection is an instance of its prototype. */
  lemma CollectionMembersAreInstances(proto: Ctor, items: seq<JsObject>, v: Vector)
    requires New(proto, items) == Some(v)
    ensures v.proto == proto && |v.collection| == |items|
    ensures forall x :: x in v.collection ==> InstanceOf(x, proto)
  {
  }

  /** Rebuilding a vector from its own collection gives the same vector back. */
  lemma RebuildFromCollection(v: Vector)
    requires AllInstancesOf(v.collection, v.proto)
    ensures New(v.proto, v.collection) == Some(v)
  {
  }

  /**
   * Building from two argument lists laid end to end succeeds exactly when
   * both halves succeed, and the collection is the two collections joined.
   */
  lemma {:induction false} NewConcat(proto: Ctor, a: seq<JsObject>, b: seq<JsObject>)
    ensures New(proto, a + b).Some? <==> New(proto, a).Some? && New(proto, b).Some?
    ensures New(proto, a + b).Some? ==>
      New(proto, a + b).value.collection == New(proto, a).value.collection + New(proto, b).value.collection
  {
    if AllInstancesOf(a + b, proto) {
      forall i | 0 <= i < |a| ensures InstanceOf(a[i], proto) {
        assert a[i] == (a + b)[i];
      }
      forall i | 0 <= i < |b| ensures InstanceOf(b[i], proto) {
        assert b[i] == (a + b)[|a| + i];
      }
    }
    if AllInstancesOf(a, proto) && AllInstancesOf(b, proto) {
      forall i | 0 <= i < |a + b| ensures InstanceOf((a + b)[i], proto) {
        if i < |a| { assert (a + b)[i] == a[i]; } else { assert (a + b)[i] == b[i - |a|]; }
      }
    }
  }

  /** The constructor `testProto` of the test suite. */
  const TEST_PROTO: Ctor := 1

  /**
   * The test suite's fixtures: two objects made with `new testProto()` and
   * one object literal, whose only constructor is `Object`.  Construction
   * from all three throws; construction from the first two yields them in
   * order.
   */
  lemma TestSuiteScenario()
    ensures
      var first := JsObject([TEST_PROTO, OBJECT], "firstItemToAdd");
      var second := JsObject([TEST_PROTO, OBJECT], "secondItemToAdd");
      var third := JsObject([OBJECT], "thirdItemToAdd");
      New(TEST_PROTO, [first, second, third]) == None &&
      New(TEST_PROTO, [first, second]) == Some(Vector(TEST_PROTO, [first, second]))
  {
    var first := JsObject([TEST_PROTO, OBJECT], "firstItemToAdd");
    var second := JsObject([TEST_PROTO, OBJECT], "secondItemToAdd");
    var third := JsObject([OBJECT], "thirdItemToAdd");
    LastItemIsChecked(TEST_PROTO, [first, second], third);
    assert [first, second] + [third] == [first, second, third];
  }
}
