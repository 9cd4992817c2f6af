/** How rows without a shop column belong to a shop: the shortest chain of required relations to one that names it. */
module ShopPaths {
  import opened Common

  datatype Kind = Scalar | Object | OtherKind

  /** A field of the schema; a relation field names the model it points to and the columns that join them. */
  datatype Field = Field(
    name: string, dbName: Option<string>, kind: Kind, isRequired: bool, isId: bool,
    target: string, fromFields: seq<string>, toFields: seq<string>)

  datatype Model = Model(name: string, dbName: Option<string>, fields: seq<Field>)

  /** One join from a row to the row it belongs to. */
  datatype Hop = Hop(table: string, parentColumns: seq<string>, childColumns: seq<string>)

  datatype ChildModel = ChildModel(
    name: string, table: string, idColumn: string, hops: seq<Hop>, shopColumns: seq<string>,
    customerColumn: Option<string>, via: seq<string>)

  datatype Relation = Relation(parent: Model, childColumns: seq<string>, parentColumns: seq<string>)

  /** Models deliberately outside a shop's data. */
  const NOT_SHOP_DATA: set<string> := {"Shop", "RefreshToken", "PasswordResetToken", "IdempotencyRecord"}

  function Or(dbName: Option<string>, name: string): string { if dbName.Some? then dbName.value else name }

  function FieldNamed(fields: seq<Field>, name: string): (r: Option<Field>)
    ensures r.Some? ==> r.value in fields && r.value.name == name
  {
    if fields == [] then None
    else if fields[0].name == name then Some(fields[0])
    else FieldNamed(fields[1..], name)
  }

  function ColumnOf(model: Model, field: string): string {
    var f := FieldNamed(model.fields, field);
    if f.Some? then Or(f.value.dbName, field) else field
  }

  function ModelByName(models: seq<Model>, name: string): (r: Option<Model>)
    ensures r.Some? ==> r.value in models && r.value.name == name
    ensures r.None? ==> forall i | 0 <= i < |models| :: models[i].name != name
  {
    if models == [] then None
    else if models[0].name == name then Some(models[0])
    else ModelByName(models[1..], name)
  }

  predicate HasShopColumn(model: Model) {
    exists i | 0 <= i < |model.fields| :: model.fields[i].name == "shopId" && model.fields[i].kind.Scalar?
  }

  function Columns(model: Model, fields: seq<string>): (r: seq<string>)
    ensures |r| == |fields|
  {
    seq(|fields|, i requires 0 <= i < |fields| => ColumnOf(model, fields[i]))
  }

  predicate IsRequiredRelation(models: seq<Model>, model: Model, f: Field) {
    && f.kind.Object? && f.isRequired && f.fromFields != []
    && ModelByName(models, f.target).Some? && f.target != model.name
  }

  /** The required relations of a model to other models, in field order. */
  function RequiredRelations(models: seq<Model>, model: Model, fields: seq<Field>): seq<Relation> {
    if fields == [] then [] else
    var f := fields[|fields| - 1];
    RequiredRelations(models, model, fields[..|fields| - 1])
    + (if IsRequiredRelation(models, model, f) then
         var parent := ModelByName(models, f.target).value;
         [Relation(parent, Columns(model, f.fromFields), Columns(parent, f.toFields))]
       else [])
  }

  function Relations(models: seq<Model>, model: Model): seq<Relation> {
    RequiredRelations(models, model, model.fields)
  }

  function ShopColumnsIn(relations: seq<Relation>): seq<string> {
    if relations == [] then [] else
    var last := relations[|relations| - 1];
    ShopColumnsIn(relations[..|relations| - 1])
    + (if last.parent.name == "Shop" && last.childColumns != [] then [last.childColumns[0]] else [])
  }

  /** The columns of a model's required relations straight to the shop. */
  function ShopRelations(models: seq<Model>, model: Model): seq<string> {
    ShopColumnsIn(Relations(models, model))
  }

  // ---------------------------------------------------------------------------
  // Chains of relations
  // ---------------------------------------------------------------------------

  function End(model: Model, path: seq<Relation>): Model {
    if path == [] then model else path[|path| - 1].parent
  }

  /** A chain of required relations that starts at the model. */
  predicate IsPath(models: seq<Model>, model: Model, path: seq<Relation>) {
    path == []
    || (IsPath(models, model, path[..|path| - 1])
        && path[|path| - 1] in Relations(models, End(model, path[..|path| - 1])))
  }

  /** A model whose rows name the shop, in a column or through a relation straight to it. */
  predicate NamesShop(models: seq<Model>, model: Model) {
    HasShopColumn(model) || ShopRelations(models, model) != []
  }

  function ShopColumns(models: seq<Model>, model: Model): seq<string> {
    if HasShopColumn(model) then [ColumnOf(model, "shopId")] else ShopRelations(models, model)
  }

  function HopsOf(path: seq<Relation>): (hops: seq<Hop>)
    ensures |hops| == |path|
  {
    seq(|path|, i requires 0 <= i < |path| =>
      Hop(Or(path[i].parent.dbName, path[i].parent.name), path[i].parentColumns, path[i].childColumns))
  }

  function NamesOf(path: seq<Relation>): (names: seq<string>)
    ensures |names| == |path|
  {
    seq(|path|, i requires 0 <= i < |path| => path[i].parent.name)
  }

  function Via(path: seq<Relation>, end: Model): seq<string> {
    NamesOf(path) + (if HasShopColumn(end) then [] else ["Shop"])
  }

  ghost predicate LeadsToShop(models: seq<Model>, model: Model, path: seq<Relation>) {
    IsPath(models, model, path) && NamesShop(models, End(model, path))
  }

  ghost predicate ReachesShop(models: seq<Model>, model: Model) {
    exists path :: LeadsToShop(models, model, path)
  }

  /** A path to a row that names the shop, and none has fewer hops. */
  ghost predicate Shortest(models: seq<Model>, model: Model, path: seq<Relation>) {
    LeadsToShop(models, model, path) && forall other | LeadsToShop(models, model, other) :: |path| <= |other|
  }

  function IdFields(fields: seq<Field>): seq<Field> {
    if fields == [] then [] else (if fields[0].isId then [fields[0]] else []) + IdFields(fields[1..])
  }

  /** A model the search is for: no shop column, not set apart, one id column. */
  predicate Eligible(model: Model) {
    !HasShopColumn(model) && model.name !in NOT_SHOP_DATA && |IdFields(model.fields)| == 1
  }

  function CustomerColumn(fields: seq<Field>): Option<string> {
    if fields == [] then None
    else if fields[0].name == "customerId" && fields[0].kind.Scalar? then Some(Or(fields[0].dbName, fields[0].name))
    else CustomerColumn(fields[1..])
  }

  function Described(models: seq<Model>, model: Model, path: seq<Relation>): ChildModel
    requires Eligible(model)
  {
    var id := IdFields(model.fields)[0];
    var end := End(model, path);
    ChildModel(model.name, Or(model.dbName, model.name), Or(id.dbName, id.name), HopsOf(path),
               ShopColumns(models, end), CustomerColumn(model.fields), Via(path, end))
  }

  // ---------------------------------------------------------------------------
  // Breadth first
  // ---------------------------------------------------------------------------

  ghost predicate UniqueNames(models: seq<Model>) {
    forall i, j | 0 <= i < j < |models| :: models[i].name != models[j].name
  }

  function Names(models: seq<Model>): set<string> { set m | m in models :: m.name }

  datatype Item = Item(at: Model, path: seq<Relation>)

  /** What the search knows: how far each seen model is, and which of them it has looked behind. */
  ghost predicate Explored(models: seq<Model>, depth: map<string, nat>, done: set<string>) {
    && done <= depth.Keys
    && (forall n | n in depth :: ModelByName(models, n).Some? && !NamesShop(models, ModelByName(models, n).value))
    && (forall n | n in done ::
          forall r | r in Relations(models, ModelByName(models, n).value) ::
            r.parent.name in depth && depth[r.parent.name] <= depth[n] + 1)
  }

  /** A queued model is seen, not yet looked behind, and queued with a path to it of its own distance. */
  ghost predicate GoodItem(models: seq<Model>, model: Model, item: Item, depth: map<string, nat>, done: set<string>) {
    && item.at in models && item.at.name in depth && item.at.name !in done
    && depth[item.at.name] == |item.path|
    && IsPath(models, model, item.path) && End(model, item.path) == item.at
  }

  /** Nearest first, at most one level apart, each model once. */
  ghost predicate InOrder(queue: seq<Item>) {
    forall i, j | 0 <= i < j < |queue| ::
      queue[i].at.name != queue[j].at.name && |queue[i].path| <= |queue[j].path| <= |queue[i].path| + 1
  }

  ghost predicate Holds(queue: seq<Item>, name: string) {
    exists i :: 0 <= i < |queue| && queue[i].at.name == name
  }

  /** The queue holds exactly the seen models not yet looked behind, none of them nearer than those looked behind. */
  ghost predicate Queued(models: seq<Model>, model: Model, queue: seq<Item>, depth: map<string, nat>, done: set<string>) {
    && (forall i | 0 <= i < |queue| :: GoodItem(models, model, queue[i], depth, done))
    && InOrder(queue)
    && (forall n | n in depth && n !in done :: Holds(queue, n))
    && (queue != [] ==> forall n | n in done && n in depth :: depth[n] <= |queue[0].path|)
  }

  lemma {:induction false} ParentsAreModels(models: seq<Model>, model: Model, fields: seq<Field>, r: Relation)
    requires r in RequiredRelations(models, model, fields)
    ensures ModelByName(models, r.parent.name) == Some(r.parent) && r.parent.name != model.name
  {
    if r in RequiredRelations(models, model, fields[..|fields| - 1]) {
      ParentsAreModels(models, model, fields[..|fields| - 1], r);
    }
  }

  lemma {:induction false} ByOwnName(models: seq<Model>, model: Model)
    requires UniqueNames(models) && model in models
    ensures ModelByName(models, model.name) == Some(model)
  {
    if models[0] != model {
      ByOwnName(models[1..], model);
    }
  }

  /**
   * As far as the models looked behind reach, the search has seen: a path no
   * longer than the distance of everything still queued ends at a seen model.
   */
  lemma {:induction false} NearIsSeen(
      models: seq<Model>, model: Model, depth: map<string, nat>, done: set<string>, level: nat, path: seq<Relation>)
    requires Explored(models, depth, done) && UniqueNames(models) && model in models
    requires model.name in depth && depth[model.name] == 0
    requires forall n | n in depth && n !in done :: level <= depth[n]
    requires IsPath(models, model, path) && |path| <= level
    ensures End(model, path).name in depth && depth[End(model, path).name] <= |path|
    ensures ModelByName(models, End(model, path).name) == Some(End(model, path))
  {
    if path == [] {
      ByOwnName(models, model);
    } else {
      var init, r := path[..|path| - 1], path[|path| - 1];
      NearIsSeen(models, model, depth, done, level, init);
      ParentsAreModels(models, End(model, init), End(model, init).fields, r);
    }
  }

  /** When everything seen has been looked behind, every path ends at a seen model. */
  lemma {:induction false} AllIsSeen(
      models: seq<Model>, model: Model, depth: map<string, nat>, done: set<string>, path: seq<Relation>)
    requires Explored(models, depth, done) && UniqueNames(models) && model in models
    requires model.name in depth && depth[model.name] == 0 && depth.Keys <= done
    requires IsPath(models, model, path)
    ensures !NamesShop(models, End(model, path))
  {
    NearIsSeen(models, model, depth, done, |path|, path);
  }

  lemma {:induction false} FrontIsNearest(
      models: seq<Model>, model: Model, queue: seq<Item>, depth: map<string, nat>, done: set<string>)
    requires Queued(models, model, queue, depth, done) && queue != []
    ensures forall n | n in depth && n !in done :: |queue[0].path| <= depth[n]
  {
    hide IsPath;
  }

  /** A seen model's queue entry is a path to it; extending it by a relation is a path to the parent. */
  lemma {:induction false} ExtendedPath(models: seq<Model>, model: Model, path: seq<Relation>, r: Relation)
    requires IsPath(models, model, path) && r in Relations(models, End(model, path))
    ensures IsPath(models, model, path + [r]) && End(model, path + [r]) == r.parent
  {
    assert (path + [r])[..|path|] == path;
  }

  lemma {:induction false} ParentOf(models: seq<Model>, model: Model, r: Relation)
    requires r in Relations(models, model)
    ensures ModelByName(models, r.parent.name) == Some(r.parent) && r.parent in models && r.parent.name != model.name
  {
    ParentsAreModels(models, model, model.fields, r);
  }

  lemma {:induction false} HoldsMore(queue: seq<Item>, next: Item, name: string)
    ensures Holds(queue + [next], name) <==> Holds(queue, name) || next.at.name == name
  {
    var after := queue + [next];
    assert after[|queue|] == next;
    if Holds(queue, name) {
      var i :| 0 <= i < |queue| && queue[i].at.name == name;
      assert after[i] == queue[i];
    }
  }

  lemma {:induction false} HoldsLess(queue: seq<Item>, name: string)
    requires queue != [] && Holds(queue, name) && name != queue[0].at.name
    ensures Holds(queue[1..], name)
  {
    var i :| 0 <= i < |queue| && queue[i].at.name == name;
    assert queue[1..][i - 1] == queue[i];
  }

  lemma {:induction false} PushKeeps(
      models: seq<Model>, model: Model, queue: seq<Item>, depth: map<string, nat>, done: set<string>, r: Relation)
    requires Queued(models, model, queue, depth, done) && Explored(models, depth, done) && queue != []
    requires r in Relations(models, queue[0].at) && r.parent.name !in depth && !NamesShop(models, r.parent)
    ensures var next := Item(r.parent, queue[0].path + [r]);
      && Queued(models, model, queue + [next], depth[r.parent.name := |next.path|], done)
      && Explored(models, depth[r.parent.name := |next.path|], done)
  {
    hide IsPath, NamesShop, Relations, Holds, ModelByName, InOrder, End;
    var next := Item(r.parent, queue[0].path + [r]);
    var deeper := depth[r.parent.name := |next.path|];
    PushedIsGood(models, model, queue, depth, done, r);
    PushedInOrder(models, model, queue, depth, done, next);
    forall n | n in deeper && n !in done ensures Holds(queue + [next], n) {
      HoldsMore(queue, next, n);
    }
    PushedIsExplored(models, queue[0].at, depth, done, r, |next.path|);
  }

  lemma {:induction false} PushedIsGood(
      models: seq<Model>, model: Model, queue: seq<Item>, depth: map<string, nat>, done: set<string>, r: Relation)
    requires queue != [] && (forall i | 0 <= i < |queue| :: GoodItem(models, model, queue[i], depth, done))
    requires r in Relations(models, queue[0].at) && r.parent.name !in depth && done <= depth.Keys
    ensures var next := Item(r.parent, queue[0].path + [r]);
      forall i | 0 <= i < |queue + [next]| :: GoodItem(models, model, (queue + [next])[i], depth[r.parent.name := |next.path|], done)
  {
    hide IsPath, Relations;
    ParentOf(models, queue[0].at, r);
    ExtendedPath(models, model, queue[0].path, r);
  }

  lemma {:induction false} PushedInOrder(
      models: seq<Model>, model: Model, queue: seq<Item>, depth: map<string, nat>, done: set<string>, next: Item)
    requires queue != [] && (forall i | 0 <= i < |queue| :: GoodItem(models, model, queue[i], depth, done)) && InOrder(queue)
    requires next.at.name !in depth && |next.path| == |queue[0].path| + 1
    ensures InOrder(queue + [next])
  {
    hide IsPath, End;
  }

  lemma {:induction false} PushedIsExplored(
      models: seq<Model>, at: Model, depth: map<string, nat>, done: set<string>, r: Relation, distance: nat)
    requires Explored(models, depth, done) && r in Relations(models, at) && r.parent.name !in depth && !NamesShop(models, r.parent)
    ensures Explored(models, depth[r.parent.name := distance], done)
  {
    hide NamesShop, Relations, ModelByName;
    ParentOf(models, at, r);
  }

  lemma {:induction false} PopKeeps(
      models: seq<Model>, model: Model, queue: seq<Item>, depth: map<string, nat>, done: set<string>)
    requires UniqueNames(models) && Queued(models, model, queue, depth, done) && Explored(models, depth, done) && queue != []
    requires forall r | r in Relations(models, queue[0].at) ::
      r.parent.name in depth && depth[r.parent.name] <= |queue[0].path| + 1
    ensures Queued(models, model, queue[1..], depth, done + {queue[0].at.name})
    ensures Explored(models, depth, done + {queue[0].at.name})
  {
    hide IsPath, NamesShop, Relations, Holds, ModelByName, End;
    var name := queue[0].at.name;
    ByOwnName(models, queue[0].at);
    forall n | n in depth && n !in done + {name} ensures Holds(queue[1..], n) {
      HoldsLess(queue, n);
    }
  }

  /** The first relation found that leads to a shop ends a path no other beats. */
  lemma {:induction false} FoundIsShortest(
      models: seq<Model>, model: Model, queue: seq<Item>, depth: map<string, nat>, done: set<string>, r: Relation)
    requires UniqueNames(models) && model in models && model.name in depth && depth[model.name] == 0
    requires Queued(models, model, queue, depth, done) && Explored(models, depth, done) && queue != []
    requires r in Relations(models, queue[0].at) && NamesShop(models, r.parent)
    ensures Shortest(models, model, queue[0].path + [r])
  {
    hide IsPath, NamesShop, Relations;
    var path := queue[0].path;
    ExtendedPath(models, model, path, r);
    FrontIsNearest(models, model, queue, depth, done);
    forall other | LeadsToShop(models, model, other) ensures |path| + 1 <= |other| {
      if |other| <= |path| {
        NearIsSeen(models, model, depth, done, |path|, other);
      }
    }
  }

  lemma {:induction false} NothingFound(models: seq<Model>, model: Model, depth: map<string, nat>, done: set<string>)
    requires UniqueNames(models) && model in models && model.name in depth && depth[model.name] == 0
    requires Queued(models, model, [], depth, done) && Explored(models, depth, done)
    ensures !ReachesShop(models, model)
  {
    hide IsPath, NamesShop, Relations;
    forall path ensures !LeadsToShop(models, model, path) {
      if IsPath(models, model, path) {
        AllIsSeen(models, model, depth, done, path);
      }
    }
  }

  lemma {:induction false} StartIsQueued(models: seq<Model>, model: Model)
    requires UniqueNames(models) && model in models && !NamesShop(models, model)
    ensures Queued(models, model, [Item(model, [])], map[model.name := 0], {})
    ensures Explored(models, map[model.name := 0], {})
  {
    ByOwnName(models, model);
    assert [Item(model, [])][0].at.name == model.name;
  }

  /** Breadth first over required relations: the nearest row that names the shop, or none when no chain leads to one. */
  method FindShopPath(models: seq<Model>, model: Model) returns (found: Option<seq<Relation>>)
    requires UniqueNames(models) && model in models && !NamesShop(models, model)
    ensures found.Some? ==> Shortest(models, model, found.value)
    ensures found.None? ==> !ReachesShop(models, model)
  {
    hide IsPath, NamesShop, Relations, Queued, Explored, Shortest, ReachesShop, ModelByName;
    found := None;
    var queue := [Item(model, [])];
    var seen := {model.name};
    ghost var depth: map<string, nat>, done: set<string> := map[model.name := 0], {};
    StartIsQueued(models, model);
    while queue != [] && found.None?
      invariant found.Some? ==> Shortest(models, model, found.value)
      invariant seen == depth.Keys && model.name in depth && depth[model.name] == 0
      invariant found.None? ==> Queued(models, model, queue, depth, done) && Explored(models, depth, done)
      invariant done <= Names(models)
      decreases found.None?, Names(models) - done
    {
      var item := queue[0];
      var relations := Relations(models, item.at);
      var all := queue;
      ItemFacts(models, model, queue, depth, done);
      for j := 0 to |relations|
        invariant all != [] && all[0] == item
        invariant seen == depth.Keys && model.name in depth && depth[model.name] == 0
        invariant found.None? && Queued(models, model, all, depth, done) && Explored(models, depth, done)
        invariant forall k | 0 <= k < j :: relations[k].parent.name in depth && depth[relations[k].parent.name] <= |item.path| + 1
      {
        var r := relations[j];
        if r.parent.name in seen {
          SeenIsNear(models, model, all, depth, done, r);
        } else {
          if NamesShop(models, r.parent) {
            FoundIsShortest(models, model, all, depth, done, r);
            found := Some(item.path + [r]);
            break;
          }
          PushKeeps(models, model, all, depth, done, r);
          seen := seen + {r.parent.name};
          depth := depth[r.parent.name := |item.path| + 1];
          all := all + [Item(r.parent, item.path + [r])];
        }
      }
      if found.None? {
        PopKeeps(models, model, all, depth, done);
        done := done + {item.at.name};
      }
      queue := all[1..];
    }
    if found.None? {
      NothingFound(models, model, depth, done);
    }
  }

  lemma {:induction false} ItemFacts(
      models: seq<Model>, model: Model, queue: seq<Item>, depth: map<string, nat>, done: set<string>)
    requires Queued(models, model, queue, depth, done) && queue != []
    ensures queue[0].at.name in Names(models) && queue[0].at.name !in done
  {
    hide IsPath;
  }

  /** A model already seen is at most one level below the front of the queue. */
  lemma {:induction false} SeenIsNear(
      models: seq<Model>, model: Model, queue: seq<Item>, depth: map<string, nat>, done: set<string>, r: Relation)
    requires Queued(models, model, queue, depth, done) && queue != [] && r.parent.name in depth
    ensures depth[r.parent.name] <= |queue[0].path| + 1
  {
    hide IsPath;
  }

  // ---------------------------------------------------------------------------
  // The inventory of models
  // ---------------------------------------------------------------------------

  /** A listed model is eligible and described by a shortest path of its own. */
  ghost predicate IsChild(models: seq<Model>, c: ChildModel) {
    exists m, path :: m in models && Eligible(m) && Shortest(models, m, path) && c == Described(models, m, path)
  }

  predicate Listed(out: seq<ChildModel>, name: string) {
    exists i | 0 <= i < |out| :: out[i].name == name
  }

  lemma {:induction false} DirectIsShortest(models: seq<Model>, model: Model)
    requires ShopRelations(models, model) != []
    ensures Shortest(models, model, [])
  {}

  lemma {:induction false} ShortestReaches(models: seq<Model>, model: Model, path: seq<Relation>)
    requires Shortest(models, model, path)
    ensures ReachesShop(models, model)
  {
    hide IsPath, NamesShop;
  }

  lemma {:induction false} ListedSnoc(out: seq<ChildModel>, c: ChildModel, name: string)
    ensures Listed(out + [c], name) <==> Listed(out, name) || c.name == name
  {
    assert (out + [c])[|out|] == c;
    if Listed(out, name) {
      var i :| 0 <= i < |out| && out[i].name == name;
      assert (out + [c])[i] == out[i];
    }
  }

  /** Every eligible model that reaches a shop, once, with a shortest path; no model that does not. */
  method ChildModels(models: seq<Model>) returns (out: seq<ChildModel>)
    requires UniqueNames(models)
    ensures forall c | c in out :: IsChild(models, c)
    ensures forall m | m in models && Eligible(m) :: ReachesShop(models, m) <==> Listed(out, m.name)
    ensures forall i, j | 0 <= i < j < |out| :: out[i].name != out[j].name
  {
    hide IsPath, NamesShop, Relations, Eligible, Shortest, ReachesShop, Listed, ShopRelations, IsChild;
    out := [];
    NoneListed(models);
    for i := 0 to |models|
      invariant forall c | c in out :: IsChild(models, c)
      invariant forall k | 0 <= k < |models| ::
        Listed(out, models[k].name) <==> k < i && Eligible(models[k]) && ReachesShop(models, models[k])
      invariant forall a, b | 0 <= a < b < |out| :: out[a].name != out[b].name
    {
      var model := models[i];
      if Eligible(model) {
        var found: Option<seq<Relation>>;
        var direct := ShopRelations(models, model);
        if direct != [] {
          DirectIsShortest(models, model);
          found := Some([]);
        } else {
          EligibleNamesShop(models, model);
          found := FindShopPath(models, model);
        }
        if found.Some? {
          ShortestReaches(models, model, found.value);
          var child := Described(models, model, found.value);
          ChildIsChild(models, model, found.value);
          forall a | 0 <= a < |out| ensures out[a].name != model.name {
            ListedAt(out, a);
          }
          forall k | 0 <= k < |models| ensures Listed(out + [child], models[k].name) <==> Listed(out, models[k].name) || k == i {
            ListedSnoc(out, child, models[k].name);
          }
          out := out + [child];
        }
      }
    }
  }

  lemma {:induction false} NoneListed(models: seq<Model>)
    ensures forall k | 0 <= k < |models| :: !Listed([], models[k].name)
  {}

  lemma {:induction false} ListedAt(out: seq<ChildModel>, a: nat)
    requires a < |out|
    ensures Listed(out, out[a].name)
  {}

  lemma {:induction false} ChildIsChild(models: seq<Model>, model: Model, path: seq<Relation>)
    requires model in models && Eligible(model) && Shortest(models, model, path)
    ensures IsChild(models, Described(models, model, path)) && Described(models, model, path).name == model.name
  {
    hide Shortest, Eligible;
  }

  lemma {:induction false} EligibleNamesShop(models: seq<Model>, model: Model)
    requires Eligible(model)
    ensures NamesShop(models, model) <==> ShopRelations(models, model) != []
  {
    hide ShopRelations;
  }

  /** Neither with a shop column, nor set apart, nor eligible with a chain to a shop: exactly the models left over. */
  method UnownedModels(models: seq<Model>) returns (names: seq<string>)
    requires UniqueNames(models)
    ensures forall m | m in models ::
      m.name in names <==> !HasShopColumn(m) && m.name !in NOT_SHOP_DATA && !(Eligible(m) && ReachesShop(models, m))
    ensures forall n | n in names :: n in Names(models)
  {
    hide HasShopColumn, Eligible, ReachesShop, Listed;
    var children := ChildModels(models);
    names := [];
    for i := 0 to |models|
      invariant forall k | 0 <= k < |models| ::
        models[k].name in names <==>
          k < i && !HasShopColumn(models[k]) && models[k].name !in NOT_SHOP_DATA && !(Eligible(models[k]) && ReachesShop(models, models[k]))
      invariant forall n | n in names :: n in Names(models)
    {
      var model := models[i];
      OnlyChildren(models, children, model);
      if !HasShopColumn(model) && model.name !in NOT_SHOP_DATA && !Listed(children, model.name) {
        names := names + [model.name];
      }
    }
  }

  /** A model on the list is one of the eligible ones. */
  lemma {:induction false} OnlyChildren(models: seq<Model>, out: seq<ChildModel>, model: Model)
    requires UniqueNames(models) && model in models
    requires forall c | c in out :: IsChild(models, c)
    requires forall m | m in models && Eligible(m) :: ReachesShop(models, m) <==> Listed(out, m.name)
    ensures Listed(out, model.name) <==> Eligible(model) && ReachesShop(models, model)
  {
    hide Eligible, ReachesShop, Shortest;
    if Listed(out, model.name) {
      var i :| 0 <= i < |out| && out[i].name == model.name;
      assert out[i] in out;
      var m, path :| m in models && Eligible(m) && Shortest(models, m, path) && out[i] == Described(models, m, path);
      SameName(models, m, model);
    }
  }

  lemma {:induction false} SameName(models: seq<Model>, a: Model, b: Model)
    requires UniqueNames(models) && a in models && b in models && a.name == b.name
    ensures a == b
  {
    ByOwnName(models, a);
    ByOwnName(models, b);
  }
}
