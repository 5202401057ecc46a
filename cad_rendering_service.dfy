/**
  `CadRenderingService`: clearing fills, finding boundary entities, creating hatches and
  ordering them by material priority, over a model of the current space of a drawing.

  The block table record is a sequence of entities; an entity's id is its position, new
  entities are appended, and erasing marks an id as erased (AutoCAD keeps erased objects,
  and enumerating a block table record skips them). The draw-order table is a sequence of
  ids, painted first to last. What the host decides -- whether a hatch pattern is accepted
  and whether a boundary loop evaluates -- is given by a `Host` value.
*/
module CadRendering {
  import opened Wrappers
  import opened TextFold
  import opened Sequences
  import opened Sorting
  import opened DrawOrder
  import opened Materials

  datatype HatchData = HatchData(pattern: string, scale: real, color: Option<CadColor>, boundary: EntityId)

  datatype EntityKind = Hatch(data: HatchData) | RasterImage | BlockReference | Other

  datatype Entity = Entity(kind: EntityKind, layer: string)

  /** The state of the current space: its entities, which of them are erased, and the paint order. */
  datatype Db = Db(entities: seq<Entity>, erased: set<EntityId>, drawOrder: seq<EntityId>)

  /** The host's verdicts: whether a pattern/scale pair is accepted, and whether a boundary's loop evaluates. */
  datatype Host = Host(acceptsPattern: (string, real) -> bool, evaluatesLoop: EntityId -> bool)

  /** Every erased id is an entity, and the paint order lists every entity exactly once. */
  predicate WellFormed(db: Db) {
    && Distinct(db.drawOrder)
    && (forall x: EntityId :: x in db.drawOrder ==> x < |db.entities|)
    && (forall x: EntityId :: x < |db.entities| ==> x in db.drawOrder)
    && (forall x: EntityId :: x in db.erased ==> x < |db.entities|)
  }

  /** The entity exists and is not erased. */
  predicate Live(db: Db, k: EntityId) {
    k < |db.entities| && k !in db.erased
  }

  /** The two kinds of entity the service looks for on a layer. */
  datatype Role = Boundary | Fill

  /** Boundaries are everything except hatches, raster images and block references; fills are hatches and raster images. */
  predicate HasRole(kind: EntityKind, role: Role) {
    match role
    case Boundary => !kind.Hatch? && !kind.RasterImage? && !kind.BlockReference?
    case Fill => kind.Hatch? || kind.RasterImage?
  }

  /** Entity `k` is live, plays `role`, and lies on `layer` ignoring case. */
  predicate OnLayerAs(db: Db, k: EntityId, layer: string, role: Role) {
    Live(db, k) && HasRole(db.entities[k].kind, role) && EqualsIgnoreCase(db.entities[k].layer, layer)
  }

  /** The ids below `n`, in block-record order, of the live entities on `layer` that play `role`. */
  function SelectBelow(db: Db, layer: string, role: Role, n: nat): (ids: seq<EntityId>)
    requires n <= |db.entities|
    ensures forall k: EntityId :: k in ids ==> k < n && OnLayerAs(db, k, layer, role)
    ensures forall k: EntityId :: k < n && OnLayerAs(db, k, layer, role) ==> k in ids
    ensures forall i, j :: 0 <= i < j < |ids| ==> ids[i] < ids[j]
  {
    if n == 0 then []
    else
      var prev := SelectBelow(db, layer, role, n - 1);
      assert forall i :: 0 <= i < |prev| ==> prev[i] in prev;
      prev + (if OnLayerAs(db, n - 1, layer, role) then [n - 1] else [])
  }

  /** Which entities are selected does not depend on the paint order. */
  lemma {:induction false} SelectBelowIgnoresOrder(db: Db, order: seq<EntityId>, layer: string, role: Role, n: nat)
    requires n <= |db.entities|
    ensures SelectBelow(db.(drawOrder := order), layer, role, n) == SelectBelow(db, layer, role, n)
  {
    if n > 0 {
      SelectBelowIgnoresOrder(db, order, layer, role, n - 1);
    }
  }

  /** `GetEntitiesOnLayer`: the boundary candidates on a layer, in block-record order. */
  function GetEntitiesOnLayer(db: Db, layerName: string): (ids: seq<EntityId>)
    ensures forall k: EntityId :: k in ids <==> OnLayerAs(db, k, layerName, Boundary)
    ensures forall i, j :: 0 <= i < j < |ids| ==> ids[i] < ids[j]
  {
    SelectBelow(db, layerName, Boundary, |db.entities|)
  }

  /** The live hatches and raster images on a layer, in block-record order (`ReorderDrawOrder`'s inner loop). */
  function FillsOnLayer(db: Db, layerName: string): (ids: seq<EntityId>)
    ensures forall k: EntityId :: k in ids <==> OnLayerAs(db, k, layerName, Fill)
  {
    SelectBelow(db, layerName, Fill, |db.entities|)
  }

  // ---------------------------------------------------------------- ClearInternal

  /** The ids below `n` that `ClearInternal(layers)` erases: live fills on a listed layer, ignoring case. */
  function FillsToClearBelow(db: Db, layers: seq<string>, n: nat): set<EntityId>
  {
    set k: EntityId | k < n && k < |db.entities| && k !in db.erased
      && HasRole(db.entities[k].kind, Fill) && AnyEqualsIgnoreCase(layers, db.entities[k].layer)
  }

  function Cleared(db: Db, layers: seq<string>): Db {
    db.(erased := db.erased + FillsToClearBelow(db, layers, |db.entities|))
  }

  /** Clearing erases exactly the fills on the listed layers; every other entity keeps its state. */
  lemma ClearedErasesExactlyListedFills(db: Db, layers: seq<string>, k: EntityId)
    requires k < |db.entities|
    ensures Cleared(db, layers).entities == db.entities && Cleared(db, layers).drawOrder == db.drawOrder
    ensures Live(Cleared(db, layers), k) <==>
      Live(db, k) && !(HasRole(db.entities[k].kind, Fill) && AnyEqualsIgnoreCase(layers, db.entities[k].layer))
  {
  }

  // ---------------------------------------------------------------- CreateHatch

  /** The pattern `CreateHatch` asks for: the item's pattern, or "SOLID" when it is null or empty. */
  function PatternOrDefault(patternName: Option<string>): (r: string)
    ensures r != ""
    ensures patternName.Some? && patternName.value != "" ==> r == patternName.value
    ensures patternName.None? || patternName.value == "" ==> r == "SOLID"
  {
    match patternName
    case Some(p) => if p == "" then "SOLID" else p
    case None => "SOLID"
  }

  /** The pattern scale `CreateHatch` asks for: the item's scale when positive, otherwise 1.0. */
  function ScaleOrDefault(scale: real): (r: real)
    ensures r > 0.0
    ensures scale > 0.0 ==> r == scale
    ensures scale <= 0.0 ==> r == 1.0
  {
    if scale > 0.0 then scale else 1.0
  }

  /** A fill the service tries to create: one item's settings against one boundary. */
  datatype Attempt = Attempt(settings: MaterialFields, boundary: EntityId)

  /** The hatch's settings; when the host rejects the pattern or scale, SOLID at the default scale 1.0. */
  function HatchFor(a: Attempt, host: Host): (h: HatchData)
    ensures h.boundary == a.boundary && h.color == a.settings.cadColor
    ensures h.pattern != "" && h.scale > 0.0
    ensures host.acceptsPattern(PatternOrDefault(a.settings.patternName), ScaleOrDefault(a.settings.scale))
      ==> h.pattern == PatternOrDefault(a.settings.patternName) && h.scale == ScaleOrDefault(a.settings.scale)
    ensures !host.acceptsPattern(PatternOrDefault(a.settings.patternName), ScaleOrDefault(a.settings.scale))
      ==> h.pattern == "SOLID" && h.scale == 1.0
  {
    var pattern := PatternOrDefault(a.settings.patternName);
    var scale := ScaleOrDefault(a.settings.scale);
    if host.acceptsPattern(pattern, scale) then HatchData(pattern, scale, a.settings.cadColor, a.boundary)
    else HatchData("SOLID", 1.0, a.settings.cadColor, a.boundary)
  }

  /** The hatch entity created for an attempt, on the item's layer. */
  function HatchEntity(a: Attempt, host: Host): Entity {
    Entity(Hatch(HatchFor(a, host)), a.settings.layerName)
  }

  /**
    `CreateHatch`: the hatch is appended (on top of the paint order); if its loop fails to
    evaluate it is erased again, otherwise it is moved to the top.
  */
  function HatchAttempt(db: Db, a: Attempt, host: Host): Db {
    var id := |db.entities|;
    var grown := Db(db.entities + [HatchEntity(a, host)], db.erased, db.drawOrder + [id]);
    if host.evaluatesLoop(a.boundary) then grown.(drawOrder := MoveToTop(grown.drawOrder, [id]))
    else grown.(erased := grown.erased + {id})
  }

  /** What one call of `CreateHatch` leaves behind. */
  lemma CreatedHatchOutcome(db: Db, a: Attempt, host: Host)
    requires WellFormed(db)
    ensures var r := HatchAttempt(db, a, host); var id := |db.entities|;
      && r.entities == db.entities + [HatchEntity(a, host)]
      && r.entities[id].layer == a.settings.layerName
      && (Live(r, id) <==> host.evaluatesLoop(a.boundary))
      && r.erased == db.erased + (if host.evaluatesLoop(a.boundary) then {} else {id})
      && r.drawOrder == db.drawOrder + [id]
      && WellFormed(r)
  {
    var id := |db.entities|;
    assert id !in db.drawOrder;
    assert id !in db.erased;
    MoveNewestToTop(db.drawOrder, id);
    var r := HatchAttempt(db, a, host);
    assert Distinct(db.drawOrder + [id]) by {
      DistinctConcat(db.drawOrder, [id]);
    }
  }

  /** The attempts made for one item: one per boundary, in boundary order. */
  function AttemptsFor(settings: MaterialFields, boundaries: seq<EntityId>): (r: seq<Attempt>)
    ensures |r| == |boundaries|
    ensures forall i :: 0 <= i < |r| ==> r[i] == Attempt(settings, boundaries[i])
  {
    seq(|boundaries|, i requires 0 <= i < |boundaries| => Attempt(settings, boundaries[i]))
  }

  /** The attempts made for a sequence of items, each against the boundaries on its layer in `db`. */
  function Attempts(db: Db, items: seq<MaterialFields>): (r: seq<Attempt>)
    ensures forall a :: a in r ==> a.settings in items && OnLayerAs(db, a.boundary, a.settings.layerName, Boundary)
  {
    if items == [] then []
    else
      var n := |items| - 1;
      var prev := Attempts(db, items[..n]);
      assert forall a :: a in prev ==> a.settings in items by {
        forall a | a in prev ensures a.settings in items {
          assert a.settings in items[..n];
        }
      }
      prev + AttemptsFor(items[n], GetEntitiesOnLayer(db, items[n].layerName))
  }

  /** A single item's attempts are those against the boundaries on its layer. */
  lemma AttemptsSingle(db: Db, item: MaterialFields)
    ensures Attempts(db, [item]) == AttemptsFor(item, GetEntitiesOnLayer(db, item.layerName))
  {
    assert [item][..0] == [];
    assert Attempts(db, [item]) == Attempts(db, []) + AttemptsFor(item, GetEntitiesOnLayer(db, item.layerName));
  }

  /** The attempts for a concatenation of item lists: those of the first list, then those of the second. */
  lemma {:induction false} AttemptsConcat(db: Db, a: seq<MaterialFields>, b: seq<MaterialFields>)
    ensures Attempts(db, a + b) == Attempts(db, a) + Attempts(db, b)
    decreases |b|
  {
    if b == [] {
      assert a + b == a;
    } else {
      var n := |b| - 1;
      assert (a + b)[..|a + b| - 1] == a + b[..n];
      assert (a + b)[|a + b| - 1] == b[n];
      AttemptsConcat(db, a, b[..n]);
    }
  }

  /** Performs the attempts in order. */
  function AppendAttempts(db: Db, attempts: seq<Attempt>, host: Host): Db
  {
    if attempts == [] then db
    else
      var n := |attempts| - 1;
      HatchAttempt(AppendAttempts(db, attempts[..n], host), attempts[n], host)
  }

  /** Hatching one more boundary extends the attempts by that boundary's attempt. */
  lemma AttemptsForStep(db: Db, settings: MaterialFields, boundaries: seq<EntityId>, j: nat, host: Host)
    requires j < |boundaries|
    ensures AppendAttempts(db, AttemptsFor(settings, boundaries[..j + 1]), host)
      == HatchAttempt(AppendAttempts(db, AttemptsFor(settings, boundaries[..j]), host), Attempt(settings, boundaries[j]), host)
  {
    assert AttemptsFor(settings, boundaries[..j + 1])[..j] == AttemptsFor(settings, boundaries[..j]);
  }

  lemma {:induction false} AppendAttemptsConcat(db: Db, a: seq<Attempt>, b: seq<Attempt>, host: Host)
    ensures AppendAttempts(db, a + b, host) == AppendAttempts(AppendAttempts(db, a, host), b, host)
  {
    if b == [] {
      assert a + b == a;
    } else {
      var n := |b| - 1;
      assert (a + b)[..|a + b| - 1] == a + b[..n];
      AppendAttemptsConcat(db, a, b[..n], host);
    }
  }

  /** The ids `base`, `base + 1`, ..., `base + count - 1`. */
  function IdsFrom(base: nat, count: nat): (r: seq<EntityId>)
    ensures |r| == count && forall i :: 0 <= i < count ==> r[i] == base + i
  {
    seq(count, i requires 0 <= i < count => base + i)
  }

  /** The hatch entities of a sequence of attempts. */
  function HatchEntities(attempts: seq<Attempt>, host: Host): (r: seq<Entity>)
    ensures |r| == |attempts| && forall i :: 0 <= i < |r| ==> r[i] == HatchEntity(attempts[i], host)
  {
    seq(|attempts|, i requires 0 <= i < |attempts| => HatchEntity(attempts[i], host))
  }

  /**
    Performing attempts only appends: one hatch per attempt, in order, on top of the paint
    order; the hatch stays live exactly when its boundary loop evaluates. Nothing that
    existed before is erased or changed.
  */
  lemma {:induction false} AppendAttemptsEffect(db: Db, attempts: seq<Attempt>, host: Host)
    requires WellFormed(db)
    ensures AppendedAttempts(db, AppendAttempts(db, attempts, host), attempts, host)
  {
    if attempts != [] {
      var n := |attempts| - 1;
      AppendAttemptsEffect(db, attempts[..n], host);
      AppendedAttemptsStep(db, AppendAttempts(db, attempts[..n], host), attempts, host);
    }
  }

  /** `r` is `db` after performing `attempts`, as `AppendAttemptsEffect` describes it. */
  predicate AppendedAttempts(db: Db, r: Db, attempts: seq<Attempt>, host: Host) {
    && WellFormed(r)
    && r.entities == db.entities + HatchEntities(attempts, host)
    && r.drawOrder == db.drawOrder + IdsFrom(|db.entities|, |attempts|)
    && r.erased == db.erased + FailedIds(|db.entities|, attempts, host)
  }

  lemma AppendedAttemptsStep(db: Db, prev: Db, attempts: seq<Attempt>, host: Host)
    requires attempts != [] && AppendedAttempts(db, prev, attempts[..|attempts| - 1], host)
    ensures AppendedAttempts(db, HatchAttempt(prev, attempts[|attempts| - 1], host), attempts, host)
  {
    var n := |attempts| - 1;
    CreatedHatchOutcome(prev, attempts[n], host);
    StepEntities(db, prev, attempts, host);
    StepDrawOrder(db, prev, attempts, host);
    StepErased(db, prev, attempts, host);
  }

  lemma StepEntities(db: Db, prev: Db, attempts: seq<Attempt>, host: Host)
    requires attempts != []
    requires prev.entities == db.entities + HatchEntities(attempts[..|attempts| - 1], host)
    ensures HatchAttempt(prev, attempts[|attempts| - 1], host).entities == db.entities + HatchEntities(attempts, host)
  {
    var n := |attempts| - 1;
    assert HatchEntities(attempts, host) == HatchEntities(attempts[..n], host) + [HatchEntity(attempts[n], host)];
  }

  lemma StepDrawOrder(db: Db, prev: Db, attempts: seq<Attempt>, host: Host)
    requires attempts != [] && |prev.entities| == |db.entities| + |attempts| - 1
    requires prev.drawOrder == db.drawOrder + IdsFrom(|db.entities|, |attempts| - 1)
    requires HatchAttempt(prev, attempts[|attempts| - 1], host).drawOrder == prev.drawOrder + [|prev.entities|]
    ensures HatchAttempt(prev, attempts[|attempts| - 1], host).drawOrder == db.drawOrder + IdsFrom(|db.entities|, |attempts|)
  {
    var n := |attempts| - 1;
    assert IdsFrom(|db.entities|, |attempts|) == IdsFrom(|db.entities|, n) + [|db.entities| + n];
  }

  lemma StepErased(db: Db, prev: Db, attempts: seq<Attempt>, host: Host)
    requires attempts != [] && |prev.entities| == |db.entities| + |attempts| - 1
    requires prev.erased == db.erased + FailedIds(|db.entities|, attempts[..|attempts| - 1], host)
    requires var a := attempts[|attempts| - 1];
      HatchAttempt(prev, a, host).erased == prev.erased + (if host.evaluatesLoop(a.boundary) then {} else {|prev.entities|})
    ensures HatchAttempt(prev, attempts[|attempts| - 1], host).erased == db.erased + FailedIds(|db.entities|, attempts, host)
  {
    var n := |attempts| - 1;
    FailedIdsStep(|db.entities|, attempts, host);
    var extra: set<EntityId> := if host.evaluatesLoop(attempts[n].boundary) then {} else {|db.entities| + n};
    assert (db.erased + FailedIds(|db.entities|, attempts[..n], host)) + extra
        == db.erased + (FailedIds(|db.entities|, attempts[..n], host) + extra);
  }

  /** The ids of the attempts, numbered from `base`, whose boundary loop fails to evaluate. */
  function FailedIds(base: nat, attempts: seq<Attempt>, host: Host): (r: set<EntityId>)
    ensures forall k :: k in r ==> base <= k < base + |attempts|
    ensures forall i :: 0 <= i < |attempts| ==> (base + i in r <==> !host.evaluatesLoop(attempts[i].boundary))
  {
    set i: nat | i < |attempts| && !host.evaluatesLoop(attempts[i].boundary) :: base + i
  }

  lemma FailedIdsStep(base: nat, attempts: seq<Attempt>, host: Host)
    requires attempts != []
    ensures var n := |attempts| - 1;
      FailedIds(base, attempts, host) ==
      FailedIds(base, attempts[..n], host) + (if host.evaluatesLoop(attempts[n].boundary) then {} else {base + n})
  {
    var n := |attempts| - 1;
    var a, b := FailedIds(base, attempts, host), FailedIds(base, attempts[..n], host);
    forall k | k in a ensures k in b || k == base + n {
      var i := k - base;
      if i < n {
        assert attempts[..n][i] == attempts[i];
      }
    }
    forall k | k in b ensures k in a {
      var i := k - base;
      assert attempts[..n][i] == attempts[i];
    }
  }

  // ---------------------------------------------------------------- boundaries never change

  /** `db'` extends `db` and has exactly the same live boundary entities. */
  predicate KeepsBoundaries(db: Db, db': Db) {
    && |db.entities| <= |db'.entities|
    && db'.entities[..|db.entities|] == db.entities
    && (forall k: EntityId :: k < |db'.entities| ==>
          (Live(db', k) && HasRole(db'.entities[k].kind, Boundary) <==>
           k < |db.entities| && Live(db, k) && HasRole(db.entities[k].kind, Boundary)))
  }

  lemma {:induction false} SelectBelowKept(db: Db, db': Db, layer: string, n: nat)
    requires KeepsBoundaries(db, db') && n <= |db'.entities|
    ensures SelectBelow(db', layer, Boundary, n) == SelectBelow(db, layer, Boundary, if n < |db.entities| then n else |db.entities|)
  {
    if n > 0 {
      SelectBelowKept(db, db', layer, n - 1);
      if n - 1 < |db.entities| {
        assert db'.entities[n - 1] == db'.entities[..|db.entities|][n - 1];
      }
    }
  }

  /** Boundaries are found the same way in a drawing that kept them. */
  lemma BoundariesKept(db: Db, db': Db, layer: string)
    requires KeepsBoundaries(db, db')
    ensures GetEntitiesOnLayer(db', layer) == GetEntitiesOnLayer(db, layer)
  {
    SelectBelowKept(db, db', layer, |db'.entities|);
  }

  lemma KeepsBoundariesTransitive(db: Db, db': Db, db'': Db)
    requires KeepsBoundaries(db, db') && KeepsBoundaries(db', db'')
    ensures KeepsBoundaries(db, db'')
  {
    assert db''.entities[..|db.entities|] == db''.entities[..|db'.entities|][..|db.entities|];
    forall k: EntityId | k < |db.entities|
      ensures db''.entities[k] == db.entities[k]
    {
      assert db''.entities[k] == db''.entities[..|db'.entities|][k];
      assert db'.entities[k] == db'.entities[..|db.entities|][k];
    }
  }

  /** Hatches are never boundaries, so creating them keeps the boundaries. */
  lemma {:induction false} AppendAttemptsKeepsBoundaries(db: Db, attempts: seq<Attempt>, host: Host)
    ensures KeepsBoundaries(db, AppendAttempts(db, attempts, host))
  {
    if attempts != [] {
      var n := |attempts| - 1;
      var prev := AppendAttempts(db, attempts[..n], host);
      AppendAttemptsKeepsBoundaries(db, attempts[..n], host);
      var next := HatchAttempt(prev, attempts[n], host);
      assert next.entities[..|prev.entities|] == prev.entities;
      assert KeepsBoundaries(prev, next);
      KeepsBoundariesTransitive(db, prev, next);
    }
  }

  /** Clearing erases only fills, so it keeps the boundaries. */
  lemma ClearedKeepsBoundaries(db: Db, layers: seq<string>)
    ensures KeepsBoundaries(db, Cleared(db, layers))
  {
    assert Cleared(db, layers).entities[..|db.entities|] == db.entities;
  }

  /** The attempts depend on the drawing only through its boundaries. */
  lemma {:induction false} AttemptsKept(db: Db, db': Db, items: seq<MaterialFields>)
    requires KeepsBoundaries(db, db')
    ensures Attempts(db', items) == Attempts(db, items)
  {
    if items != [] {
      var n := |items| - 1;
      AttemptsKept(db, db', items[..n]);
      BoundariesKept(db, db', items[n].layerName);
    }
  }

  // ---------------------------------------------------------------- ReorderDrawOrder

  /** `OrderByDescending(x => x.Priority)`'s key order: `a` may come before `b`. */
  predicate HigherPriorityFirst(a: MaterialFields, b: MaterialFields) {
    a.priority >= b.priority
  }

  lemma HigherPriorityFirstIsTotalPreorder()
    ensures IsTotalPreorder(HigherPriorityFirst)
  {
  }

  lemma SortByPriorityStable(items: seq<MaterialFields>)
    ensures forall p :: TiesWith(InsertionSort(items, HigherPriorityFirst), p, HigherPriorityFirst)
                        == TiesWith(items, p, HigherPriorityFirst)
  {
    HigherPriorityFirstIsTotalPreorder();
    forall p {
      InsertionSortStable(items, p, HigherPriorityFirst);
    }
  }

  /**
    `OrderByDescending(x => x.Priority)`: a rearrangement of the items in non-increasing
    priority, items of equal priority in their original order.
  */
  function SortByPriorityDesc(items: seq<MaterialFields>): (r: seq<MaterialFields>)
    ensures multiset(r) == multiset(items) && |r| == |items|
    ensures forall i, j :: 0 <= i < j < |r| ==> r[i].priority >= r[j].priority
    ensures forall p :: TiesWith(r, p, HigherPriorityFirst) == TiesWith(items, p, HigherPriorityFirst)
  {
    HigherPriorityFirstIsTotalPreorder();
    InsertionSortSorted(items, HigherPriorityFirst);
    SortByPriorityStable(items);
    InsertionSort(items, HigherPriorityFirst)
  }

  /** The fills moved for each item, in the order the items are visited. */
  function FillGroups(db: Db, sorted: seq<MaterialFields>): (groups: seq<seq<EntityId>>)
    ensures |groups| == |sorted|
    ensures forall i :: 0 <= i < |sorted| ==> groups[i] == FillsOnLayer(db, sorted[i].layerName)
  {
    seq(|sorted|, i requires 0 <= i < |sorted| => FillsOnLayer(db, sorted[i].layerName))
  }

  /** `ReorderDrawOrder`: the fills of each item's layer go to the top, visiting items by descending priority. */
  function Reordered(db: Db, items: seq<MaterialFields>): Db {
    db.(drawOrder := MoveGroups(db.drawOrder, FillGroups(db, SortByPriorityDesc(items))))
  }

  lemma ReorderedWellFormed(db: Db, items: seq<MaterialFields>)
    requires WellFormed(db)
    ensures WellFormed(Reordered(db, items)) && KeepsBoundaries(db, Reordered(db, items))
  {
    var r := Reordered(db, items);
    MoveGroupsIsPermutation(db.drawOrder, FillGroups(db, SortByPriorityDesc(items)));
    forall x: EntityId
      ensures x in r.drawOrder <==> x in db.drawOrder
    {
      MoveGroupsMembers(db.drawOrder, FillGroups(db, SortByPriorityDesc(items)), x);
    }
    assert r.entities[..|db.entities|] == db.entities;
  }

  /** No two items name the same layer, ignoring case. */
  predicate LayersDistinct(items: seq<MaterialFields>) {
    forall i, j :: 0 <= i < j < |items| ==> !EqualsIgnoreCase(items[i].layerName, items[j].layerName)
  }

  lemma LayersDistinctPermutation(s: seq<MaterialFields>, t: seq<MaterialFields>)
    requires LayersDistinct(t) && multiset(s) == multiset(t)
    ensures LayersDistinct(s)
  {
    assert Distinct(t);
    PermutationDistinct(s, t);
    forall i, j | 0 <= i < j < |s|
      ensures !EqualsIgnoreCase(s[i].layerName, s[j].layerName)
    {
      assert s[i] in multiset(t) && s[j] in multiset(t);
      var p, q := IndexOf(t, s[i]), IndexOf(t, s[j]);
      assert t[p] == s[i] && t[q] == s[j];
      if p > q {
        assert !EqualsIgnoreCase(t[q].layerName, t[p].layerName);
      }
    }
  }

  lemma FillGroupsDisjoint(db: Db, sorted: seq<MaterialFields>)
    requires LayersDistinct(sorted)
    ensures DisjointGroups(FillGroups(db, sorted))
  {
    var groups := FillGroups(db, sorted);
    forall i, j, x | 0 <= i < j < |groups| && x in groups[i]
      ensures x !in groups[j]
    {
      assert OnLayerAs(db, x, sorted[i].layerName, Fill);
      assert !EqualsIgnoreCase(sorted[i].layerName, sorted[j].layerName);
    }
  }

  /** Where an item sits in the visiting order, and that its fills form its group. */
  lemma SortedPosition(items: seq<MaterialFields>, a: MaterialFields) returns (i: nat)
    requires a in items
    ensures var sorted := SortByPriorityDesc(items); i < |sorted| && sorted[i] == a
  {
    var sorted := SortByPriorityDesc(items);
    assert a in multiset(sorted);
    i := IndexOf(sorted, a);
  }

  /**
    After `ReorderDrawOrder`, a fill on the layer of an item with a smaller priority number
    is painted above a fill on the layer of an item with a larger one: the lowest number ends
    topmost.
  */
  lemma ReorderPutsLowerPriorityOnTop(db: Db, items: seq<MaterialFields>,
                                      a: MaterialFields, b: MaterialFields, x: EntityId, y: EntityId)
    requires WellFormed(db) && LayersDistinct(items)
    requires a in items && b in items && a.priority < b.priority
    requires x in FillsOnLayer(db, a.layerName) && y in FillsOnLayer(db, b.layerName)
    ensures Precedes(Reordered(db, items).drawOrder, y, x)
  {
    var sorted := SortByPriorityDesc(items);
    LayersDistinctPermutation(sorted, items);
    FillGroupsDisjoint(db, sorted);
    var ia := SortedPosition(items, a);
    var ib := SortedPosition(items, b);
    assert ib < ia;
    LaterGroupAbove(db.drawOrder, FillGroups(db, sorted), ib, ia, x, y);
  }

  /** Fills on the same layer (ignoring case) keep their relative paint order, whatever the items. */
  lemma ReorderKeepsLayerOrder(db: Db, items: seq<MaterialFields>, layer: string, x: EntityId, y: EntityId)
    requires WellFormed(db)
    requires x in FillsOnLayer(db, layer) && y in FillsOnLayer(db, layer)
    ensures Precedes(Reordered(db, items).drawOrder, x, y) <==> Precedes(db.drawOrder, x, y)
  {
    var sorted := SortByPriorityDesc(items);
    var groups := FillGroups(db, sorted);
    forall i | 0 <= i < |groups|
      ensures x in groups[i] <==> y in groups[i]
    {
      assert Fold(db.entities[x].layer) == Fold(db.entities[y].layer);
    }
    GroupKeepsOrder(db.drawOrder, groups, x, y);
  }

  /** Every fill on a listed layer ends above every entity that is not such a fill. */
  lemma ReorderPutsListedFillsAboveTheRest(db: Db, items: seq<MaterialFields>, a: MaterialFields, x: EntityId, y: EntityId)
    requires WellFormed(db) && a in items
    requires y in FillsOnLayer(db, a.layerName)
    requires x < |db.entities| && forall b :: b in items ==> x !in FillsOnLayer(db, b.layerName)
    ensures Precedes(Reordered(db, items).drawOrder, x, y)
  {
    var sorted := SortByPriorityDesc(items);
    var groups := FillGroups(db, sorted);
    var ia := SortedPosition(items, a);
    forall i | 0 <= i < |groups|
      ensures x !in groups[i]
    {
      assert sorted[i] in multiset(items);
    }
    UngroupedBelow(db.drawOrder, groups, ia, x, y);
  }

  // ---------------------------------------------------------------- the public operations

  /** `RunFill`: items by descending priority, boundaries of each item's layer hatched, nothing cleared. */
  function RunFillResult(db: Db, items: seq<MaterialFields>, host: Host): Db {
    AppendAttempts(db, Attempts(db, SortByPriorityDesc(items)), host)
  }

  /** `ExecuteFill`: clear the fills of every listed layer, hatch in list order, then reorder. */
  function ExecuteFillResult(db: Db, items: seq<MaterialFields>, host: Host): Db {
    var cleared := Cleared(db, LayerNames(items));
    Reordered(AppendAttempts(cleared, Attempts(cleared, items), host), items)
  }

  /** `RefreshSingleLayer`: clear and re-hatch one item's layer, then reorder all items. */
  function RefreshSingleLayerResult(db: Db, item: MaterialFields, allItems: seq<MaterialFields>, host: Host): Db {
    var cleared := Cleared(db, [item.layerName]);
    Reordered(AppendAttempts(cleared, Attempts(cleared, [item]), host), allItems)
  }

  /**
    `RunFill` never erases or alters what was there: the old entities and their liveness are
    unchanged, and the new entities are the attempted hatches, highest priority number first.
  */
  lemma RunFillKeepsExisting(db: Db, items: seq<MaterialFields>, host: Host)
    requires WellFormed(db)
    ensures var r := RunFillResult(db, items, host); var attempts := Attempts(db, SortByPriorityDesc(items));
      && WellFormed(r)
      && r.entities == db.entities + HatchEntities(attempts, host)
      && (forall k: EntityId :: k < |db.entities| ==> (Live(r, k) <==> Live(db, k)))
      && (forall i :: 0 <= i < |attempts| ==>
            (Live(r, |db.entities| + i) <==> host.evaluatesLoop(attempts[i].boundary)))
  {
    var attempts := Attempts(db, SortByPriorityDesc(items));
    AppendAttemptsEffect(db, attempts, host);
  }

  /** `ExecuteFill` erases the old fills of the listed layers and leaves every boundary as it was. */
  lemma ExecuteFillClearsTargets(db: Db, items: seq<MaterialFields>, host: Host)
    requires WellFormed(db)
    ensures var r := ExecuteFillResult(db, items, host); var names := LayerNames(items);
      && WellFormed(r)
      && KeepsBoundaries(db, r)
      && (forall k: EntityId ::
            (k < |db.entities| && HasRole(db.entities[k].kind, Fill) && AnyEqualsIgnoreCase(names, db.entities[k].layer))
            ==> !Live(r, k))
  {
    var names := LayerNames(items);
    var cleared := Cleared(db, names);
    var filled := AppendAttempts(cleared, Attempts(cleared, items), host);
    var r := Reordered(filled, items);
    assert WellFormed(cleared);
    AppendAttemptsEffect(cleared, Attempts(cleared, items), host);
    ReorderedWellFormed(filled, items);
    ClearedKeepsBoundaries(db, names);
    AppendAttemptsKeepsBoundaries(cleared, Attempts(cleared, items), host);
    KeepsBoundariesTransitive(db, cleared, filled);
    KeepsBoundariesTransitive(db, filled, r);
  }

  /**
    `ExecuteFill` erases exactly the old fills of the listed layers, keeps every other entity as
    it was, and appends one hatch per boundary of each item, in item order, each live exactly
    when its loop evaluates. Every boundary is still there afterwards, so running it again
    clears and re-attempts the same hatches.
  */
  lemma ExecuteFillReplacesFills(db: Db, items: seq<MaterialFields>, host: Host)
    requires WellFormed(db)
    ensures var r := ExecuteFillResult(db, items, host); var names := LayerNames(items);
      var attempts := Attempts(db, items);
      && WellFormed(r)
      && r.entities == db.entities + HatchEntities(attempts, host)
      && (forall k: EntityId :: k < |db.entities| ==>
            (Live(r, k) <==> Live(db, k) && !(HasRole(db.entities[k].kind, Fill) && AnyEqualsIgnoreCase(names, db.entities[k].layer))))
      && (forall i :: 0 <= i < |attempts| ==>
            (Live(r, |db.entities| + i) <==> host.evaluatesLoop(attempts[i].boundary)))
      && (forall layer :: GetEntitiesOnLayer(r, layer) == GetEntitiesOnLayer(db, layer))
      && Attempts(Cleared(r, names), items) == Attempts(Cleared(db, names), items)
  {
    var names := LayerNames(items);
    var r := ExecuteFillResult(db, items, host);
    ExecuteFillClearsTargets(db, items, host);
    ExecuteFillHatches(db, items, host);
    forall layer {
      BoundariesKept(db, r, layer);
    }
    ClearedKeepsBoundaries(r, names);
    KeepsBoundariesTransitive(db, r, Cleared(r, names));
    AttemptsKept(db, Cleared(r, names), items);
    AttemptsKept(db, Cleared(db, names), items);
  }

  /** The entities and liveness `ExecuteFill` leaves behind. */
  lemma ExecuteFillHatches(db: Db, items: seq<MaterialFields>, host: Host)
    requires WellFormed(db)
    ensures var r := ExecuteFillResult(db, items, host); var names := LayerNames(items);
      var attempts := Attempts(db, items);
      && r.entities == db.entities + HatchEntities(attempts, host)
      && (forall k: EntityId :: k < |db.entities| ==>
            (Live(r, k) <==> Live(db, k) && !(HasRole(db.entities[k].kind, Fill) && AnyEqualsIgnoreCase(names, db.entities[k].layer))))
      && (forall i :: 0 <= i < |attempts| ==>
            (Live(r, |db.entities| + i) <==> host.evaluatesLoop(attempts[i].boundary)))
  {
    var names := LayerNames(items);
    var attempts := Attempts(db, items);
    assert Attempts(Cleared(db, names), items) == attempts by {
      ClearedKeepsBoundaries(db, names);
      AttemptsKept(db, Cleared(db, names), items);
    }
    ClearThenAppend(db, names, attempts, host);
  }

  /** Clearing the listed layers and then performing attempts: the old entities lose exactly the listed fills. */
  lemma ClearThenAppend(db: Db, names: seq<string>, attempts: seq<Attempt>, host: Host)
    requires WellFormed(db)
    ensures var r := AppendAttempts(Cleared(db, names), attempts, host);
      && r.entities == db.entities + HatchEntities(attempts, host)
      && (forall k: EntityId :: k < |db.entities| ==>
            (Live(r, k) <==> Live(db, k) && !(HasRole(db.entities[k].kind, Fill) && AnyEqualsIgnoreCase(names, db.entities[k].layer))))
      && (forall i :: 0 <= i < |attempts| ==>
            (Live(r, |db.entities| + i) <==> host.evaluatesLoop(attempts[i].boundary)))
  {
    var cleared := Cleared(db, names);
    var filled := AppendAttempts(cleared, attempts, host);
    assert WellFormed(cleared);
    assert AppendedAttempts(cleared, filled, attempts, host) by {
      AppendAttemptsEffect(cleared, attempts, host);
    }
    AppendedLiveness(cleared, filled, attempts, host);
    forall k: EntityId | k < |db.entities|
      ensures Live(filled, k) <==> Live(db, k) && !(HasRole(db.entities[k].kind, Fill) && AnyEqualsIgnoreCase(names, db.entities[k].layer))
    {
      ClearedErasesExactlyListedFills(db, names, k);
    }
  }

  /**
    `RefreshSingleLayer` erases the old fills of the item's layer, keeps every other entity,
    and adds one hatch per boundary found on that layer, live exactly when its loop evaluates.
  */
  lemma RefreshSingleLayerReplacesFills(db: Db, item: MaterialFields, allItems: seq<MaterialFields>, host: Host)
    requires WellFormed(db)
    ensures var r := RefreshSingleLayerResult(db, item, allItems, host);
      var attempts := AttemptsFor(item, GetEntitiesOnLayer(db, item.layerName));
      && WellFormed(r)
      && r.entities == db.entities + HatchEntities(attempts, host)
      && (forall k: EntityId :: k < |db.entities| ==>
            (Live(r, k) <==> Live(db, k) && !(HasRole(db.entities[k].kind, Fill) && EqualsIgnoreCase(db.entities[k].layer, item.layerName))))
      && (forall i :: 0 <= i < |attempts| ==>
            (Live(r, |db.entities| + i) <==> host.evaluatesLoop(attempts[i].boundary)))
  {
    var cleared := Cleared(db, [item.layerName]);
    var attempts := AttemptsFor(item, GetEntitiesOnLayer(db, item.layerName));
    RefreshAttempts(db, item);
    var filled := AppendAttempts(cleared, attempts, host);
    var r := Reordered(filled, allItems);
    assert WellFormed(r) by {
      AppendAttemptsEffect(cleared, attempts, host);
      ReorderedWellFormed(filled, allItems);
    }
    assert AppendedAttempts(cleared, filled, attempts, host) by {
      AppendAttemptsEffect(cleared, attempts, host);
    }
    AppendedLiveness(cleared, filled, attempts, host);
    forall k: EntityId | k < |db.entities|
      ensures Live(filled, k) <==> Live(db, k) && !(HasRole(db.entities[k].kind, Fill) && EqualsIgnoreCase(db.entities[k].layer, item.layerName))
    {
      ClearedOneLayer(db, item.layerName, k);
    }
  }

  /** The attempts of a refresh are made against the boundaries the drawing had before clearing. */
  lemma RefreshAttempts(db: Db, item: MaterialFields)
    ensures Attempts(Cleared(db, [item.layerName]), [item]) == AttemptsFor(item, GetEntitiesOnLayer(db, item.layerName))
  {
    ClearedKeepsBoundaries(db, [item.layerName]);
    BoundariesKept(db, Cleared(db, [item.layerName]), item.layerName);
    AttemptsSingle(Cleared(db, [item.layerName]), item);
  }

  /** After performing attempts, the old entities are live as before and each new hatch is live when its loop evaluates. */
  lemma AppendedLiveness(db: Db, r: Db, attempts: seq<Attempt>, host: Host)
    requires WellFormed(db) && AppendedAttempts(db, r, attempts, host)
    ensures forall k: EntityId :: k < |db.entities| ==> (Live(r, k) <==> Live(db, k))
    ensures forall i :: 0 <= i < |attempts| ==> (Live(r, |db.entities| + i) <==> host.evaluatesLoop(attempts[i].boundary))
  {
  }

  /** Clearing one layer erases exactly the fills on that layer. */
  lemma ClearedOneLayer(db: Db, layer: string, k: EntityId)
    requires k < |db.entities|
    ensures Live(Cleared(db, [layer]), k) <==> Live(db, k) && !(HasRole(db.entities[k].kind, Fill) && EqualsIgnoreCase(db.entities[k].layer, layer))
  {
    ClearedErasesExactlyListedFills(db, [layer], k);
    assert AnyEqualsIgnoreCase([layer], db.entities[k].layer) <==> EqualsIgnoreCase(layer, db.entities[k].layer);
  }

  /** One pass of the item loop shared by the fill operations. */
  lemma FillStep(db0: Db, items: seq<MaterialFields>, i: nat, host: Host)
    requires i < |items|
    ensures var prev := AppendAttempts(db0, Attempts(db0, items[..i]), host);
      var bs := GetEntitiesOnLayer(prev, items[i].layerName);
      && bs == GetEntitiesOnLayer(db0, items[i].layerName)
      && AppendAttempts(prev, AttemptsFor(items[i], bs), host) == AppendAttempts(db0, Attempts(db0, items[..i + 1]), host)
      && (bs == [] ==> prev == AppendAttempts(db0, Attempts(db0, items[..i + 1]), host))
  {
    var prev := AppendAttempts(db0, Attempts(db0, items[..i]), host);
    AppendAttemptsKeepsBoundaries(db0, Attempts(db0, items[..i]), host);
    BoundariesKept(db0, prev, items[i].layerName);
    assert items[..i + 1][..i] == items[..i];
    var bs := GetEntitiesOnLayer(db0, items[i].layerName);
    AppendAttemptsConcat(db0, Attempts(db0, items[..i]), AttemptsFor(items[i], bs), host);
    if bs == [] {
      assert Attempts(db0, items[..i]) + AttemptsFor(items[i], bs) == Attempts(db0, items[..i]);
    }
  }

  /** One pass of `ReorderDrawOrder`'s loop. */
  lemma MoveGroupsStep(db0: Db, sorted: seq<MaterialFields>, i: nat)
    requires i < |sorted|
    ensures var g := FillsOnLayer(db0, sorted[i].layerName);
      var prev := MoveGroups(db0.drawOrder, FillGroups(db0, sorted[..i]));
      MoveGroups(db0.drawOrder, FillGroups(db0, sorted[..i + 1])) == if |g| > 0 then DrawOrder.MoveToTop(prev, g) else prev
  {
    assert FillGroups(db0, sorted[..i + 1])[..i] == FillGroups(db0, sorted[..i]);
  }

  // ---------------------------------------------------------------- the drawing, updated in place

  class Drawing {
    var entities: seq<Entity>
    var erased: set<EntityId>
    var drawOrder: seq<EntityId>

    function State(): Db
      reads this
    {
      Db(entities, erased, drawOrder)
    }

    predicate Valid()
      reads this
    {
      WellFormed(State())
    }

    constructor (initial: Db)
      requires WellFormed(initial)
      ensures Valid() && State() == initial
    {
      entities := initial.entities;
      erased := initial.erased;
      drawOrder := initial.drawOrder;
    }

    /** `BlockTableRecord.AppendEntity`: the new entity gets the next id and is painted last. */
    method AppendEntity(e: Entity) returns (id: EntityId)
      modifies this
      ensures id == old(|entities|)
      ensures State() == old(State()).(entities := old(entities) + [e], drawOrder := old(drawOrder) + [id])
    {
      id := |entities|;
      entities := entities + [e];
      drawOrder := drawOrder + [id];
    }

    /** `Entity.Erase`. */
    method Erase(id: EntityId)
      modifies this
      ensures State() == old(State()).(erased := old(erased) + {id})
    {
      erased := erased + {id};
    }

    /** `DrawOrderTable.MoveToTop`. */
    method MoveToTop(ids: seq<EntityId>)
      requires Valid()
      modifies this
      ensures Valid()
      ensures State() == old(State()).(drawOrder := DrawOrder.MoveToTop(old(drawOrder), ids))
    {
      MoveToTopIsPermutation(drawOrder, ids);
      var moved := DrawOrder.MoveToTop(drawOrder, ids);
      forall x: EntityId
        ensures x in moved <==> x in drawOrder
      {
        assert x in moved <==> x in multiset(moved);
      }
      drawOrder := moved;
    }

    /** `ClearInternal`: erases every live hatch and raster image whose layer matches a listed name, ignoring case. */
    method ClearInternal(layers: seq<string>)
      requires Valid()
      modifies this
      ensures Valid()
      ensures State() == Cleared(old(State()), layers)
    {
      ghost var db0 := State();
      var k := 0;
      while k < |entities|
        invariant 0 <= k <= |entities|
        invariant entities == db0.entities && drawOrder == db0.drawOrder
        invariant erased == db0.erased + FillsToClearBelow(db0, layers, k)
      {
        var ent := entities[k];
        if k !in erased && HasRole(ent.kind, Fill) && AnyEqualsIgnoreCase(layers, ent.layer) {
          Erase(k);
        }
        assert FillsToClearBelow(db0, layers, k + 1) ==
          FillsToClearBelow(db0, layers, k) + (if k in FillsToClearBelow(db0, layers, k + 1) then {k} else {});
        k := k + 1;
      }
    }

    /** `CreateHatch` for one boundary. */
    method CreateHatch(boundaryId: EntityId, settings: MaterialFields, host: Host)
      requires Valid()
      modifies this
      ensures Valid()
      ensures State() == HatchAttempt(old(State()), Attempt(settings, boundaryId), host)
    {
      CreatedHatchOutcome(State(), Attempt(settings, boundaryId), host);
      var hat := Entity(Hatch(HatchFor(Attempt(settings, boundaryId), host)), settings.layerName);
      var id := AppendEntity(hat);
      if !host.evaluatesLoop(boundaryId) {
        Erase(id);
        return;
      }
      MoveToTop([id]);
    }

    /** The loop shared by the three fill operations: one `CreateHatch` per boundary id. */
    method HatchBoundaries(settings: MaterialFields, boundaryIds: seq<EntityId>, host: Host)
      requires Valid()
      modifies this
      ensures Valid()
      ensures State() == AppendAttempts(old(State()), AttemptsFor(settings, boundaryIds), host)
    {
      ghost var db0 := State();
      for j := 0 to |boundaryIds|
        invariant Valid()
        invariant State() == AppendAttempts(db0, AttemptsFor(settings, boundaryIds[..j]), host)
      {
        AttemptsForStep(db0, settings, boundaryIds, j, host);
        CreateHatch(boundaryIds[j], settings, host);
      }
      assert boundaryIds[..|boundaryIds|] == boundaryIds;
    }

    /** Hatches every item's boundaries, in the given order, without clearing. */
    method FillItems(items: seq<MaterialFields>, host: Host, skipEmpty: bool)
      requires Valid()
      modifies this
      ensures Valid()
      ensures State() == AppendAttempts(old(State()), Attempts(old(State()), items), host)
    {
      ghost var db0 := State();
      for i := 0 to |items|
        invariant Valid()
        invariant State() == AppendAttempts(db0, Attempts(db0, items[..i]), host)
      {
        FillStep(db0, items, i, host);
        var item := items[i];
        var boundaryIds := GetEntitiesOnLayer(State(), item.layerName);
        if skipEmpty && |boundaryIds| == 0 {
          continue;
        }
        HatchBoundaries(item, boundaryIds, host);
      }
      assert items[..|items|] == items;
    }

    /** `RunFill`: items by descending priority; a layer with no boundaries is skipped. */
    method RunFill(items: seq<MaterialFields>, host: Host)
      requires Valid()
      modifies this
      ensures Valid()
      ensures State() == RunFillResult(old(State()), items, host)
    {
      var sortedItems := SortByPriorityDesc(items);
      FillItems(sortedItems, host, true);
    }

    /** `ReorderDrawOrder`. */
    method ReorderDrawOrder(items: seq<MaterialFields>)
      requires Valid()
      modifies this
      ensures Valid()
      ensures State() == Reordered(old(State()), items)
    {
      ghost var db0 := State();
      var sorted := SortByPriorityDesc(items);
      for i := 0 to |sorted|
        invariant Valid()
        invariant entities == db0.entities && erased == db0.erased
        invariant drawOrder == MoveGroups(db0.drawOrder, FillGroups(db0, sorted[..i]))
      {
        MoveGroupsStep(db0, sorted, i);
        SelectBelowIgnoresOrder(db0, drawOrder, sorted[i].layerName, Fill, |entities|);
        var ids := FillsOnLayer(State(), sorted[i].layerName);
        if |ids| > 0 {
          MoveToTop(ids);
        }
      }
      assert sorted[..|sorted|] == sorted;
    }

    /** `ExecuteFill`. */
    method ExecuteFill(items: seq<MaterialFields>, host: Host)
      requires Valid()
      modifies this
      ensures Valid()
      ensures State() == ExecuteFillResult(old(State()), items, host)
      ensures entities == old(entities) + HatchEntities(Attempts(old(State()), items), host)
      ensures forall k: EntityId :: k < old(|entities|) ==>
        (Live(State(), k) <==> old(Live(State(), k)) && !(HasRole(old(entities)[k].kind, Fill) && AnyEqualsIgnoreCase(LayerNames(items), old(entities)[k].layer)))
    {
      ghost var db := State();
      var targetLayers := LayerNames(items);
      ClearInternal(targetLayers);
      FillItems(items, host, false);
      ReorderDrawOrder(items);
      ExecuteFillHatches(db, items, host);
    }

    /** `RefreshSingleLayer`. */
    method RefreshSingleLayer(item: MaterialFields, allItems: seq<MaterialFields>, host: Host)
      requires Valid()
      modifies this
      ensures Valid()
      ensures State() == RefreshSingleLayerResult(old(State()), item, allItems, host)
    {
      ClearInternal([item.layerName]);
      FillItems([item], host, false);
      ReorderDrawOrder(allItems);
    }

    /** `ClearFillsOnLayers`. */
    method ClearFillsOnLayers(layerNames: seq<string>)
      requires Valid()
      modifies this
      ensures Valid()
      ensures State() == Cleared(old(State()), layerNames)
    {
      ClearInternal(layerNames);
    }
  }
}
