/**
 * The per-frame render list `Map<TexturedModel, List<Entity>>` that
 * `Render.processEntity` fills and the entity renderer walks. A `HashMap`
 * iterates its keys in some order fixed by its contents; the model keeps that
 * order explicitly in `order` and proves its properties for every order.
 */
module Batching {
  import opened Common
  import opened Entities

  /** The map's contents: its key iteration order and the list under each key. */
  datatype Batch = Batch(order: seq<TexturedModel>, lists: map<TexturedModel, seq<Entity>>)

  predicate Distinct(order: seq<TexturedModel>) {
    forall i, j | 0 <= i < j < |order| :: order[i] != order[j]
  }

  /** Every key in the iteration order has a list. */
  predicate Covers(order: seq<TexturedModel>, lists: map<TexturedModel, seq<Entity>>) {
    forall i | 0 <= i < |order| :: order[i] in lists
  }

  /** The iteration order lists every key of the map exactly once. */
  predicate WellFormed(b: Batch) {
    && Distinct(b.order)
    && Covers(b.order, b.lists)
    && (forall k | k in b.lists :: k in b.order)
  }

  const EmptyBatch: Batch := Batch([], map[])

  /** `n` copies of `x`. */
  function Repeat<T>(x: T, n: nat): (r: seq<T>)
    ensures |r| == n && forall i | 0 <= i < n :: r[i] == x
  {
    if n == 0 then [] else Repeat(x, n - 1) + [x]
  }

  /** The entities in the order a pass over the map visits them: key by key, each list in order. */
  function Flatten(order: seq<TexturedModel>, lists: map<TexturedModel, seq<Entity>>): seq<Entity>
    requires Covers(order, lists)
  {
    if |order| == 0 then []
    else Flatten(order[..|order| - 1], lists) + lists[order[|order| - 1]]
  }

  /** For each entity of `Flatten`, the key whose list it was taken from. */
  function FlattenKeys(order: seq<TexturedModel>, lists: map<TexturedModel, seq<Entity>>): seq<TexturedModel>
    requires Covers(order, lists)
  {
    if |order| == 0 then []
    else
      var k := order[|order| - 1];
      FlattenKeys(order[..|order| - 1], lists) + Repeat(k, |lists[k]|)
  }

  /** The visiting order of a whole map. */
  function Instances(b: Batch): seq<Entity>
    requires WellFormed(b)
  {
    Flatten(b.order, b.lists)
  }

  /** The keys visited with each instance of a whole map. */
  function InstanceKeys(b: Batch): seq<TexturedModel>
    requires WellFormed(b)
  {
    FlattenKeys(b.order, b.lists)
  }

  /** A pass visits one key per entity. */
  lemma {:induction false} FlattenKeysLength(order: seq<TexturedModel>, lists: map<TexturedModel, seq<Entity>>)
    requires Covers(order, lists)
    ensures |FlattenKeys(order, lists)| == |Flatten(order, lists)|
  {
    if order != [] {
      FlattenKeysLength(order[..|order| - 1], lists);
    }
  }

  /** The last group of a pass comes after the groups before it. */
  lemma FlattenUnfold(order: seq<TexturedModel>, lists: map<TexturedModel, seq<Entity>>)
    requires Covers(order, lists) && order != []
    ensures Covers(order[..|order| - 1], lists)
    ensures Flatten(order, lists) == Flatten(order[..|order| - 1], lists) + lists[order[|order| - 1]]
    ensures FlattenKeys(order, lists) ==
            FlattenKeys(order[..|order| - 1], lists) + Repeat(order[|order| - 1], |lists[order[|order| - 1]]|)
  {
  }

  /** Each flattened entity is filed under the key `FlattenKeys` pairs it with. */
  lemma {:induction false} FlattenKeysAgree(order: seq<TexturedModel>, lists: map<TexturedModel, seq<Entity>>)
    requires Covers(order, lists)
    ensures |FlattenKeys(order, lists)| == |Flatten(order, lists)|
    ensures forall n | 0 <= n < |Flatten(order, lists)| ::
              FlattenKeys(order, lists)[n] in order &&
              Flatten(order, lists)[n] in lists[FlattenKeys(order, lists)[n]]
  {
    if order != [] {
      var init := order[..|order| - 1];
      var k := order[|order| - 1];
      FlattenKeysAgree(init, lists);
      FlattenKeysLength(order, lists);
      var f, fk := Flatten(order, lists), FlattenKeys(order, lists);
      var f0, fk0 := Flatten(init, lists), FlattenKeys(init, lists);
      assert f == f0 + lists[k] && fk == fk0 + Repeat(k, |lists[k]|);
      forall n | 0 <= n < |f|
        ensures fk[n] in order && f[n] in lists[fk[n]]
      {
        if n < |f0| {
          assert fk[n] == fk0[n] && f[n] == f0[n];
          assert fk0[n] in init;
        } else {
          assert fk[n] == k && f[n] == lists[k][n - |f0|];
        }
      }
    }
  }

  /** The first `g` groups of a pass: the pass over the key prefix `order[..g]`. */
  lemma FlattenStep(order: seq<TexturedModel>, lists: map<TexturedModel, seq<Entity>>, g: nat)
    requires Covers(order, lists) && g < |order|
    ensures Covers(order[..g + 1], lists) && Covers(order[..g], lists)
    ensures Flatten(order[..g + 1], lists) == Flatten(order[..g], lists) + lists[order[g]]
    ensures FlattenKeys(order[..g + 1], lists) ==
            FlattenKeys(order[..g], lists) + Repeat(order[g], |lists[order[g]]|)
  {
    assert order[..g + 1][..g] == order[..g];
  }

  /** A pass over a key prefix visits a prefix of the instances of the whole pass. */
  lemma {:induction false} FlattenPrefix(order: seq<TexturedModel>, lists: map<TexturedModel, seq<Entity>>, g: nat)
    requires Covers(order, lists) && g <= |order|
    ensures Covers(order[..g], lists)
    ensures |Flatten(order[..g], lists)| <= |Flatten(order, lists)|
    ensures Flatten(order, lists)[..|Flatten(order[..g], lists)|] == Flatten(order[..g], lists)
  {
    if g == |order| {
      assert order[..g] == order;
    } else {
      var init := order[..|order| - 1];
      assert init[..g] == order[..g];
      FlattenPrefix(init, lists, g);
      var f0 := Flatten(init, lists);
      assert Flatten(order, lists) == f0 + lists[order[|order| - 1]];
      assert (f0 + lists[order[|order| - 1]])[..|f0|] == f0;
    }
  }

  /** Only the lists under keys in the order matter to a pass. */
  lemma {:induction false} FlattenAgree(order: seq<TexturedModel>, lists: map<TexturedModel, seq<Entity>>,
                                        lists': map<TexturedModel, seq<Entity>>)
    requires Covers(order, lists) && Covers(order, lists')
    requires forall k | k in order :: lists[k] == lists'[k]
    ensures Flatten(order, lists) == Flatten(order, lists')
    ensures FlattenKeys(order, lists) == FlattenKeys(order, lists')
  {
    if order != [] {
      FlattenAgree(order[..|order| - 1], lists, lists');
    }
  }

  /** Replacing the list of a key that occurs once changes the pass length by the lists' difference. */
  lemma {:induction false} FlattenLengthUpdate(order: seq<TexturedModel>, lists: map<TexturedModel, seq<Entity>>,
                                               k: TexturedModel, l: seq<Entity>)
    requires Covers(order, lists) && Distinct(order) && k in order
    ensures Covers(order, lists[k := l])
    ensures |Flatten(order, lists[k := l])| == |Flatten(order, lists)| - |lists[k]| + |l|
  {
    var init := order[..|order| - 1];
    var last := order[|order| - 1];
    var lists' := lists[k := l];
    if last == k {
      assert k !in init by {
        assert forall i | 0 <= i < |init| :: init[i] == order[i];
      }
      FlattenAgree(init, lists, lists');
    } else {
      assert k in init by {
        var i :| 0 <= i < |order| && order[i] == k;
        assert i < |order| - 1;
        assert init[i] == k;
      }
      FlattenLengthUpdate(init, lists, k, l);
    }
  }

  /**
   * The map after `processEntity(e)`, where `k` is the model `e.getModel()`
   * returned: `e` is appended to the list of `k`, which is created empty
   * (and appended to the key order) when `k` has none yet.
   */
  function WithEntity(b: Batch, e: Entity, k: TexturedModel): (r: Batch)
    ensures k in r.lists && r.lists[k] == (if k in b.lists then b.lists[k] else []) + [e]
    ensures forall k' | k' != k && k' in b.lists :: k' in r.lists && r.lists[k'] == b.lists[k']
    ensures r.lists.Keys == b.lists.Keys + {k}
  {
    if k in b.lists then Batch(b.order, b.lists[k := b.lists[k] + [e]])
    else Batch(b.order + [k], b.lists[k := [e]])
  }

  /** Adding an entity keeps the map well formed and lengthens the pass by exactly one. */
  lemma WithEntityGrowsPass(b: Batch, e: Entity, k: TexturedModel)
    requires WellFormed(b)
    ensures WellFormed(WithEntity(b, e, k))
    ensures |Instances(WithEntity(b, e, k))| == |Instances(b)| + 1
  {
    var r := WithEntity(b, e, k);
    if k in b.lists {
      FlattenLengthUpdate(b.order, b.lists, k, b.lists[k] + [e]);
    } else {
      NewKeyKeepsWellFormed(b, e, k);
      assert r.order[..|r.order| - 1] == b.order;
      FlattenAgree(b.order, b.lists, r.lists);
    }
  }

  /** A key not yet in the map goes once to the end of the order. */
  lemma NewKeyKeepsWellFormed(b: Batch, e: Entity, k: TexturedModel)
    requires WellFormed(b) && k !in b.lists
    ensures WellFormed(WithEntity(b, e, k))
  {
    var r := WithEntity(b, e, k);
    forall i, j | 0 <= i < j < |r.order|
      ensures r.order[i] != r.order[j]
    {
      if j == |r.order| - 1 {
        assert r.order[i] == b.order[i];
      }
    }
  }

  /** A well-formed map with a new entity appended to the pass when its key is new. */
  lemma WithNewKeyAppends(b: Batch, e: Entity, k: TexturedModel)
    requires WellFormed(b) && k !in b.lists
    ensures WellFormed(WithEntity(b, e, k))
    ensures Instances(WithEntity(b, e, k)) == Instances(b) + [e]
  {
    WithEntityGrowsPass(b, e, k);
    var r := WithEntity(b, e, k);
    assert r.order[..|r.order| - 1] == b.order;
    FlattenAgree(b.order, b.lists, r.lists);
  }

  /** One call of `processEntity`: the entity and the model it had at that moment. */
  datatype Submission = Submission(entity: Entity, model: TexturedModel)

  /** The map after a frame's calls of `processEntity`, in call order. */
  function SubmitAll(b: Batch, subs: seq<Submission>): Batch
  {
    if |subs| == 0 then b
    else
      var last := subs[|subs| - 1];
      WithEntity(SubmitAll(b, subs[..|subs| - 1]), last.entity, last.model)
  }

  /** The entities submitted under model `k`, in call order. */
  function SubmittedUnder(subs: seq<Submission>, k: TexturedModel): seq<Entity>
  {
    if |subs| == 0 then []
    else
      var last := subs[|subs| - 1];
      SubmittedUnder(subs[..|subs| - 1], k) + (if last.model == k then [last.entity] else [])
  }

  /**
   * Grouping by model keeps call order within each group: after a frame the
   * list of every model holds exactly the entities submitted with it, in the
   * order they were submitted, and no other model has a list.
   */
  lemma {:induction false} SubmitAllGroupsInOrder(subs: seq<Submission>, k: TexturedModel)
    ensures WellFormed(SubmitAll(EmptyBatch, subs))
    ensures k in SubmitAll(EmptyBatch, subs).lists <==> SubmittedUnder(subs, k) != []
    ensures k in SubmitAll(EmptyBatch, subs).lists ==>
              SubmitAll(EmptyBatch, subs).lists[k] == SubmittedUnder(subs, k)
    ensures |Instances(SubmitAll(EmptyBatch, subs))| == |subs|
  {
    if subs != [] {
      var init := subs[..|subs| - 1];
      var last := subs[|subs| - 1];
      var b := SubmitAll(EmptyBatch, init);
      SubmitAllGroupsInOrder(init, k);
      WithEntityGrowsPass(b, last.entity, last.model);
      assert SubmitAll(EmptyBatch, subs) == WithEntity(b, last.entity, last.model);
      assert SubmittedUnder(subs, k) == SubmittedUnder(init, k) + (if last.model == k then [last.entity] else []);
    }
  }

  /**
   * Models are compared by identity: two distinct model objects, even with the
   * same VAO, vertex count and texture, get separate lists.
   */
  lemma SameContentsSeparateGroups(m1: TexturedModel, m2: TexturedModel, e1: Entity, e2: Entity)
    requires m1 != m2
    requires m1.vaoId == m2.vaoId && m1.vertexCount == m2.vertexCount && m1.texture == m2.texture
    ensures var b := SubmitAll(EmptyBatch, [Submission(e1, m1), Submission(e2, m2)]);
            && b.order == [m1, m2]
            && b.lists == map[m1 := [e1], m2 := [e2]]
  {
    var subs := [Submission(e1, m1), Submission(e2, m2)];
    assert subs[..1] == [Submission(e1, m1)];
    assert subs[..1][..0] == [];
    assert SubmitAll(EmptyBatch, subs[..1][..0]) == EmptyBatch;
    var b1 := SubmitAll(EmptyBatch, subs[..1]);
    assert b1 == WithEntity(EmptyBatch, e1, m1) == Batch([m1], map[m1 := [e1]]);
    assert SubmitAll(EmptyBatch, subs) == WithEntity(b1, e2, m2);
  }

  /** The `HashMap` holding a frame's render list. */
  class EntityBatch {
    var order: seq<TexturedModel>
    var lists: map<TexturedModel, seq<Entity>>

    function Value(): Batch
      reads this
    {
      Batch(order, lists)
    }

    ghost predicate Valid()
      reads this
    {
      WellFormed(Value())
    }

    /** `new HashMap<>()`. */
    constructor ()
      ensures Valid() && Value() == EmptyBatch
    {
      order := [];
      lists := map[];
    }

    /** `get(k)`: the list under `k`, or null. */
    method Get(k: TexturedModel) returns (l: Option<seq<Entity>>)
      ensures k in lists <==> l.Some?
      ensures k in lists ==> l.value == lists[k]
    {
      if k in lists {
        l := Some(lists[k]);
      } else {
        l := None;
      }
    }

    /** `put(k, l)`: replaces the list of a present key, adds a new key at the end of the order. */
    method Put(k: TexturedModel, l: seq<Entity>)
      requires Valid()
      modifies this
      ensures Valid()
      ensures lists == old(lists)[k := l]
      ensures order == if k in old(lists) then old(order) else old(order) + [k]
    {
      if k !in lists {
        assert forall i | 0 <= i < |order| :: order[i] in lists;
        order := order + [k];
      }
      lists := lists[k := l];
    }

    /** `clear()`. */
    method Clear()
      modifies this
      ensures Valid() && Value() == EmptyBatch
    {
      order := [];
      lists := map[];
    }
  }
}
