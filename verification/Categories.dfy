/** The category tree: parents, materialised paths and depths, re-rooted a whole subtree at a time. */
module Categories {
  import opened Common
  import opened CategoryPaths

  datatype Category = Category(shop: string, parentId: Option<string>, path: string, depth: int, isDeleted: bool)

  type Rows = map<string, Category>

  datatype Error = CategoryNotFound | ParentNotFound | OwnParent | UnderOwnChild | HasActiveChildren | DuplicateId

  /** A live row of the shop: what every query of the service looks at. */
  predicate Live(rows: Rows, shop: string, id: string) {
    id in rows && rows[id].shop == shop && !rows[id].isDeleted
  }

  function ChildPath(rows: Rows, id: string): string
    requires id in rows
  {
    rows[id].path + id + "/"
  }

  function Created(rows: Rows, shop: string, id: string, parentId: Option<string>): Result<Rows, Error> {
    if parentId.Some? && !Live(rows, shop, parentId.value) then Err(ParentNotFound)
    else if id in rows then Err(DuplicateId)
    else if parentId.None? then Ok(rows[id := Category(shop, None, "/", 0, false)])
    else Ok(rows[id := Category(shop, parentId, ChildPath(rows, parentId.value), rows[parentId.value].depth + 1, false)])
  }

  /** The rows the one UPDATE of a move matches. */
  predicate Matched(c: Category, shop: string, oldPrefix: string) {
    c.shop == shop && !c.isDeleted && Like(c.path, Escaped(oldPrefix) + "%")
  }

  /** Swaps the prefix of a matched row and shifts its depth. */
  function Rerooted(c: Category, oldPrefix: string, newPrefix: string, delta: int): Category {
    c.(path := newPrefix + (if |oldPrefix| <= |c.path| then c.path[|oldPrefix|..] else ""), depth := c.depth + delta)
  }

  function DescendantsUpdated(rows: Rows, shop: string, oldPrefix: string, newPrefix: string, delta: int): Rows {
    if oldPrefix == newPrefix && delta == 0 then rows else
    map r | r in rows :: if Matched(rows[r], shop, oldPrefix) then Rerooted(rows[r], oldPrefix, newPrefix, delta) else rows[r]
  }

  /** The moved row first, then everything below it. */
  function Replanted(rows: Rows, shop: string, id: string, target: Option<string>, path: string, depth: int): Rows
    requires id in rows
  {
    var before := rows[id];
    DescendantsUpdated(rows[id := before.(parentId := target, path := path, depth := depth)],
                       shop, before.path + id + "/", path + id + "/", depth - before.depth)
  }

  /** `target` is the new parent, or none for the root. */
  function MovedTo(rows: Rows, shop: string, id: string, target: Option<string>): Result<Rows, Error> {
    if target == Some(id) then Err(OwnParent)
    else if !Live(rows, shop, id) then Err(CategoryNotFound)
    else if target == rows[id].parentId then Ok(rows)
    else if target.None? then Ok(Replanted(rows, shop, id, None, "/", 0))
    else if !Live(rows, shop, target.value) then Err(ParentNotFound)
    else if Contains(rows[target.value].path, "/" + id + "/") then Err(UnderOwnChild)
    else Ok(Replanted(rows, shop, id, target, ChildPath(rows, target.value), rows[target.value].depth + 1))
  }

  /** `target` absent: an edit that does not move. */
  function Updated(rows: Rows, shop: string, id: string, target: Option<Option<string>>): Result<Rows, Error> {
    if target.Some? then MovedTo(rows, shop, id, target.value)
    else if !Live(rows, shop, id) then Err(CategoryNotFound)
    else Ok(rows)
  }

  predicate HasChildren(rows: Rows, shop: string, id: string) {
    exists r | r in rows :: Live(rows, shop, r) && rows[r].parentId == Some(id)
  }

  function SoftDeleted(rows: Rows, shop: string, id: string): Result<Rows, Error> {
    if !Live(rows, shop, id) then Err(CategoryNotFound)
    else if HasChildren(rows, shop, id) then Err(HasActiveChildren)
    else Ok(rows[id := rows[id].(isDeleted := true)])
  }

  class CategoriesService {
    var rows: Rows

    constructor ()
      ensures rows == map[]
    {
      rows := map[];
    }

    method Create(shop: string, id: string, parentId: Option<string>) returns (r: Result<Category, Error>)
      modifies this
      ensures var spec := Created(old(rows), shop, id, parentId);
        && (spec.Err? ==> r == Err(spec.error) && rows == old(rows))
        && (spec.Ok? ==> rows == spec.value && id in rows && r == Ok(rows[id]))
    {
      var path, depth := "/", 0;
      if parentId.Some? {
        if !Live(rows, shop, parentId.value) {
          return Err(ParentNotFound);
        }
        path := rows[parentId.value].path + parentId.value + "/";
        depth := rows[parentId.value].depth + 1;
      }
      if id in rows {
        return Err(DuplicateId);
      }
      rows := rows[id := Category(shop, parentId, path, depth, false)];
      return Ok(rows[id]);
    }

    method Update(shop: string, id: string, target: Option<Option<string>>) returns (r: Result<Category, Error>)
      modifies this
      ensures var spec := Updated(old(rows), shop, id, target);
        && (spec.Err? ==> r == Err(spec.error) && rows == old(rows))
        && (spec.Ok? ==> rows == spec.value && id in rows)
    {
      hide Like, Contains, Escaped;
      if target.None? {
        if !Live(rows, shop, id) {
          return Err(CategoryNotFound);
        }
        return Ok(rows[id]);
      }
      if target.value == Some(id) {
        return Err(OwnParent);
      }
      if !Live(rows, shop, id) {
        return Err(CategoryNotFound);
      }
      var category := rows[id];
      if target.value == category.parentId {
        return Ok(category);
      }
      var path, depth := "/", 0;
      if target.value.Some? {
        var parentId := target.value.value;
        if !Live(rows, shop, parentId) {
          return Err(ParentNotFound);
        }
        if Contains(rows[parentId].path, "/" + id + "/") {
          return Err(UnderOwnChild);
        }
        path := rows[parentId].path + parentId + "/";
        depth := rows[parentId].depth + 1;
      }
      rows := rows[id := category.(parentId := target.value, path := path, depth := depth)];
      r := Ok(rows[id]);
      UpdateDescendantsPath(id, shop, category.path, path, category.depth, depth);
    }

    method UpdateDescendantsPath(
        id: string, shop: string, oldParentPath: string, newParentPath: string, oldDepth: int, newDepth: int)
      modifies this
      ensures rows == DescendantsUpdated(old(rows), shop, oldParentPath + id + "/", newParentPath + id + "/", newDepth - oldDepth)
    {
      hide Like, Escaped;
      var oldPrefix, newPrefix := oldParentPath + id + "/", newParentPath + id + "/";
      var depthDelta := newDepth - oldDepth;
      if oldPrefix == newPrefix && depthDelta == 0 {
        return;
      }
      rows := map r | r in rows :: if Matched(rows[r], shop, oldPrefix) then Rerooted(rows[r], oldPrefix, newPrefix, depthDelta) else rows[r];
    }

    method SoftDelete(shop: string, id: string) returns (r: Result<(), Error>)
      modifies this
      ensures var spec := SoftDeleted(old(rows), shop, id);
        && (spec.Err? ==> r == Err(spec.error) && rows == old(rows))
        && (spec.Ok? ==> rows == spec.value && r == Ok(()))
    {
      if !Live(rows, shop, id) {
        return Err(CategoryNotFound);
      }
      if HasChildren(rows, shop, id) {
        return Err(HasActiveChildren);
      }
      rows := rows[id := rows[id].(isDeleted := true)];
      return Ok(());
    }
  }

  // ---------------------------------------------------------------------------
  // The tree
  // ---------------------------------------------------------------------------

  /** A live row under a live parent of its shop, one level below it, on its path. */
  ghost predicate WellPlaced(rows: Rows, id: string)
    requires id in rows
  {
    var c := rows[id];
    if c.parentId.None? then c.path == "/" && c.depth == 0
    else
      && Live(rows, c.shop, c.parentId.value)
      && c.path == ChildPath(rows, c.parentId.value)
      && c.depth == rows[c.parentId.value].depth + 1
  }

  ghost predicate Good(rows: Rows) {
    && (forall id | id in rows :: IsId(id) && 0 <= rows[id].depth)
    && (forall id | id in rows && !rows[id].isDeleted :: WellPlaced(rows, id))
  }

  /** The chain of ancestors that the parent links spell, root first. */
  ghost function Ancestors(rows: Rows, id: string): (chain: seq<string>)
    requires Good(rows) && id in rows && !rows[id].isDeleted
    decreases rows[id].depth
  {
    if rows[id].parentId.None? then []
    else
      assert WellPlaced(rows, id);
      Ancestors(rows, rows[id].parentId.value) + [rows[id].parentId.value]
  }

  /** Every live category's path is its chain of live ancestors and its depth the chain's length; no category is its own ancestor. */
  lemma {:induction false} PathIsAncestry(rows: Rows, id: string)
    requires Good(rows) && id in rows && !rows[id].isDeleted
    ensures var chain := Ancestors(rows, id);
      && rows[id].path == Render(chain) && rows[id].depth == |chain| && AreIds(chain) && id !in chain
      && (forall i | 0 <= i < |chain| :: Live(rows, rows[id].shop, chain[i]) && rows[chain[i]].depth == i)
    decreases rows[id].depth
  {
    assert WellPlaced(rows, id);
    if rows[id].parentId.Some? {
      var p := rows[id].parentId.value;
      PathIsAncestry(rows, p);
      var chain := Ancestors(rows, id);
      assert chain[..|chain| - 1] == Ancestors(rows, p);
    }
  }

  /** A category's children path starts another's path exactly when it is one of its ancestors. */
  lemma {:induction false} MatchIsDescent(rows: Rows, id: string, r: string)
    requires Good(rows) && id in rows && !rows[id].isDeleted && r in rows && !rows[r].isDeleted
    requires rows[id].shop == rows[r].shop
    ensures ChildPath(rows, id) <= rows[r].path <==> id in Ancestors(rows, r)
    ensures Contains(rows[r].path, "/" + id + "/") <==> id in Ancestors(rows, r)
  {
    hide Render, Ancestors, Contains;
    PathIsAncestry(rows, id);
    PathIsAncestry(rows, r);
    var a, b := Ancestors(rows, id), Ancestors(rows, r);
    ContainsIsMembership(b, id);
    RenderSnoc(a, id);
    PrefixIsAncestry(a + [id], b);
    if id in b {
      ChainAbove(rows, r, id);
    }
    if a + [id] <= b {
      LastOfPrefix(a, id, b);
    }
  }

  lemma {:induction false} RenderSnoc(chain: seq<string>, id: string)
    ensures Render(chain + [id]) == Render(chain) + id + "/"
  {
    assert (chain + [id])[..|chain|] == chain;
    assert Render(chain) + Segment(id) == Render(chain) + id + "/";
  }

  /** An ancestor's own chain is the part of the chain above it. */
  lemma {:induction false} ChainAbove(rows: Rows, r: string, id: string)
    requires Good(rows) && r in rows && !rows[r].isDeleted && id in Ancestors(rows, r)
    ensures id in rows && !rows[id].isDeleted && Ancestors(rows, id) + [id] <= Ancestors(rows, r)
    decreases rows[r].depth
  {
    assert WellPlaced(rows, r);
    var p := rows[r].parentId.value;
    if id != p {
      ChainAbove(rows, p, id);
    }
  }

  // ---------------------------------------------------------------------------
  // A move
  // ---------------------------------------------------------------------------

  /** Where a move may go: the root, or a live category that is neither the moved one nor below it. */
  ghost predicate MayMove(rows: Rows, shop: string, id: string, target: Option<string>)
    requires Good(rows)
  {
    && Live(rows, shop, id)
    && (target.Some? ==> Live(rows, shop, target.value) && target.value != id && id !in Ancestors(rows, target.value))
  }

  ghost function NewChain(rows: Rows, target: Option<string>): seq<string>
    requires Good(rows) && (target.Some? ==> target.value in rows && !rows[target.value].isDeleted)
  {
    if target.None? then [] else Ancestors(rows, target.value) + [target.value]
  }

  function NewPath(rows: Rows, target: Option<string>): string
    requires target.Some? ==> target.value in rows
  {
    if target.None? then "/" else ChildPath(rows, target.value)
  }

  function NewDepth(rows: Rows, target: Option<string>): int
    requires target.Some? ==> target.value in rows
  {
    if target.None? then 0 else rows[target.value].depth + 1
  }

  ghost function AfterMove(rows: Rows, shop: string, id: string, target: Option<string>): Rows
    requires Good(rows) && MayMove(rows, shop, id, target)
  {
    Replanted(rows, shop, id, target, NewPath(rows, target), NewDepth(rows, target))
  }

  /** A row below the moved one. */
  ghost predicate IsBelow(rows: Rows, shop: string, id: string, r: string)
    requires Good(rows)
  {
    Live(rows, shop, r) && id in Ancestors(rows, r)
  }

  lemma {:induction false} NewPathIsChain(rows: Rows, shop: string, id: string, target: Option<string>)
    requires Good(rows) && MayMove(rows, shop, id, target)
    ensures NewPath(rows, target) == Render(NewChain(rows, target)) && NewDepth(rows, target) == |NewChain(rows, target)|
    ensures AreIds(NewChain(rows, target)) && id !in NewChain(rows, target)
  {
    hide Render, Ancestors;
    if target.Some? {
      PathIsAncestry(rows, target.value);
      RenderSnoc(Ancestors(rows, target.value), target.value);
    } else {
      RenderOfRoot();
    }
  }

  lemma {:induction false} RenderOfRoot()
    ensures Render([]) == "/"
  {}

  /** The moved row's new path does not match its own old prefix: the bulk rewrite leaves the moved row alone. */
  lemma {:induction false} MovedRowIsNotMatched(rows: Rows, shop: string, id: string, target: Option<string>)
    requires Good(rows) && MayMove(rows, shop, id, target)
    ensures !(ChildPath(rows, id) <= NewPath(rows, target))
  {
    hide Render, Ancestors;
    PathIsAncestry(rows, id);
    NewPathIsChain(rows, shop, id, target);
    var a, b := Ancestors(rows, id), NewChain(rows, target);
    RenderSnoc(a, id);
    PrefixIsAncestry(a + [id], b);
    if a + [id] <= b {
      LastOfPrefix(a, id, b);
    }
  }

  lemma {:induction false} LastOfPrefix(a: seq<string>, id: string, b: seq<string>)
    requires a + [id] <= b
    ensures id in b
  {
    assert b[|a|] == (a + [id])[|a|];
  }

  /** The rewrite's pattern, once the moved row is written, matches exactly the rows below it. */
  lemma {:induction false} PatternMatchesDescendants(rows: Rows, shop: string, id: string, target: Option<string>, r: string)
    requires Good(rows) && MayMove(rows, shop, id, target) && r in rows
    ensures var moved := rows[id].(parentId := target, path := NewPath(rows, target), depth := NewDepth(rows, target));
      Matched(if r == id then moved else rows[r], shop, ChildPath(rows, id)) <==> r != id && IsBelow(rows, shop, id, r)
    ensures r != id && IsBelow(rows, shop, id, r) ==> ChildPath(rows, id) <= rows[r].path
  {
    hide Render, Ancestors, Contains, Like, Escaped;
    var oldPrefix := ChildPath(rows, id);
    MovedRowIsNotMatched(rows, shop, id, target);
    EscapedPatternIsPrefix(oldPrefix, NewPath(rows, target));
    EscapedPatternIsPrefix(oldPrefix, rows[r].path);
    if Live(rows, shop, r) {
      MatchIsDescent(rows, id, r);
    }
  }

  /** Row by row, what a move writes: the moved row, the prefix and depth of exactly the rows below it, nothing else. */
  lemma {:induction false} MoveRewrites(rows: Rows, shop: string, id: string, target: Option<string>, r: string)
    requires Good(rows) && MayMove(rows, shop, id, target) && r in rows
    ensures var after := AfterMove(rows, shop, id, target);
      && after.Keys == rows.Keys
      && (r == id ==> after[r] == rows[r].(parentId := target, path := NewPath(rows, target), depth := NewDepth(rows, target)))
      && (r != id && IsBelow(rows, shop, id, r) ==>
            && ChildPath(rows, id) <= rows[r].path
            && after[r] == rows[r].(path := NewPath(rows, target) + id + "/" + rows[r].path[|ChildPath(rows, id)|..],
                                    depth := rows[r].depth + NewDepth(rows, target) - rows[id].depth))
      && (r != id && !IsBelow(rows, shop, id, r) ==> after[r] == rows[r])
  {
    hide Ancestors, Contains, Matched, IsBelow, Good, ChildPath, NewPath, NewDepth, WellPlaced;
    PatternMatchesDescendants(rows, shop, id, target, r);
    AfterMoveIs(rows, shop, id, target);
    var oldPrefix, newPrefix := ChildPath(rows, id), NewPath(rows, target) + id + "/";
    if oldPrefix == newPrefix && oldPrefix <= rows[r].path {
      assert rows[r].path == newPrefix + rows[r].path[|oldPrefix|..];
    }
  }

  lemma {:induction false} AfterMoveIs(rows: Rows, shop: string, id: string, target: Option<string>)
    requires Good(rows) && MayMove(rows, shop, id, target)
    ensures AfterMove(rows, shop, id, target) == DescendantsUpdated(
      rows[id := rows[id].(parentId := target, path := NewPath(rows, target), depth := NewDepth(rows, target))],
      shop, ChildPath(rows, id), NewPath(rows, target) + id + "/", NewDepth(rows, target) - rows[id].depth)
  {
    hide Ancestors, Good;
  }

  /** The rows of a move, one at a time, are well placed. */
  lemma {:induction false} MovedIsWellPlaced(rows: Rows, shop: string, id: string, target: Option<string>, r: string)
    requires Good(rows) && MayMove(rows, shop, id, target) && r in rows && !rows[r].isDeleted
    ensures r in AfterMove(rows, shop, id, target) && WellPlaced(AfterMove(rows, shop, id, target), r)
  {
    hide Ancestors, Replanted, Contains;
    MoveRewrites(rows, shop, id, target, r);
    assert WellPlaced(rows, r);
    if r == id {
      if target.Some? {
        MoveRewrites(rows, shop, id, target, target.value);
      }
    } else if rows[r].parentId.Some? {
      var p := rows[r].parentId.value;
      MoveRewrites(rows, shop, id, target, p);
      BelowParent(rows, shop, id, r);
      if rows[r].shop == shop && (p == id || IsBelow(rows, shop, id, p)) {
        ShiftedPath(rows[p].path, rows[r].path, p, ChildPath(rows, id), NewPath(rows, target) + id + "/", p == id);
      }
    } else {
      RootIsNotBelow(rows, shop, id, r);
    }
  }

  lemma {:induction false} BelowParent(rows: Rows, shop: string, id: string, r: string)
    requires Good(rows) && r in rows && !rows[r].isDeleted && rows[r].parentId.Some?
    ensures var p := rows[r].parentId.value;
      Live(rows, rows[r].shop, p) && (IsBelow(rows, shop, id, r) <==> rows[r].shop == shop && (p == id || IsBelow(rows, shop, id, p)))
  {
    assert WellPlaced(rows, r);
  }

  lemma {:induction false} RootIsNotBelow(rows: Rows, shop: string, id: string, r: string)
    requires Good(rows) && r in rows && !rows[r].isDeleted && rows[r].parentId.None?
    ensures !IsBelow(rows, shop, id, r)
  {}

  /** A child's path stays its parent's path and id after both swap the same prefix. */
  lemma {:induction false} ShiftedPath(
      parent: string, child: string, p: string, oldPrefix: string, newPrefix: string, isTop: bool)
    requires child == parent + p + "/" && oldPrefix <= child
    requires if isTop then oldPrefix == child else oldPrefix <= parent
    ensures isTop ==> newPrefix + child[|oldPrefix|..] == newPrefix
    ensures !isTop ==> newPrefix + child[|oldPrefix|..] == newPrefix + parent[|oldPrefix|..] + p + "/"
  {
    if !isTop {
      assert child[|oldPrefix|..] == parent[|oldPrefix|..] + p + "/";
    }
  }

  /** A move keeps the tree: every path is again the chain of live ancestors, and nothing is its own ancestor. */
  lemma {:induction false} MoveKeepsTree(rows: Rows, shop: string, id: string, target: Option<string>)
    requires Good(rows) && MayMove(rows, shop, id, target)
    ensures Good(AfterMove(rows, shop, id, target))
  {
    hide Ancestors, Replanted, WellPlaced, IsBelow;
    var after := AfterMove(rows, shop, id, target);
    MoveRewrites(rows, shop, id, target, id);
    forall r | r in after ensures IsId(r) && 0 <= after[r].depth {
      MoveRewrites(rows, shop, id, target, r);
      DepthsStay(rows, shop, id, target, r);
    }
    forall r | r in after && !after[r].isDeleted ensures WellPlaced(after, r) {
      MoveRewrites(rows, shop, id, target, r);
      MovedIsWellPlaced(rows, shop, id, target, r);
    }
  }

  lemma {:induction false} DepthsStay(rows: Rows, shop: string, id: string, target: Option<string>, r: string)
    requires Good(rows) && MayMove(rows, shop, id, target) && r in rows
    ensures 0 <= NewDepth(rows, target)
    ensures IsBelow(rows, shop, id, r) ==> rows[id].depth < rows[r].depth
  {
    if IsBelow(rows, shop, id, r) {
      ChainAbove(rows, r, id);
      PathIsAncestry(rows, r);
      PathIsAncestry(rows, id);
    }
  }

  /**
   * What a move means: the moved category hangs under its new parent, each
   * category below it keeps its chain from the moved one down, and every other
   * category's chain is what it was.
   */
  lemma {:induction false} MoveReplantsSubtree(rows: Rows, shop: string, id: string, target: Option<string>, r: string)
    requires Good(rows) && MayMove(rows, shop, id, target) && r in rows && !rows[r].isDeleted
    ensures var after := AfterMove(rows, shop, id, target);
      && Good(after) && r in after && !after[r].isDeleted
      && (IsBelow(rows, shop, id, r) ==> |Ancestors(rows, id)| <= |Ancestors(rows, r)|)
      && Ancestors(after, r)
         == (if r == id then NewChain(rows, target)
             else if IsBelow(rows, shop, id, r) then NewChain(rows, target) + Ancestors(rows, r)[|Ancestors(rows, id)|..]
             else Ancestors(rows, r))
    decreases rows[r].depth
  {
    hide Replanted;
    MoveKeepsTree(rows, shop, id, target);
    MoveRewrites(rows, shop, id, target, id);
    MoveRewrites(rows, shop, id, target, r);
    assert WellPlaced(rows, r);
    if r == id {
      if target.Some? {
        OthersKeepChain(rows, shop, id, target, target.value);
      }
    } else if IsBelow(rows, shop, id, r) {
      var p := rows[r].parentId.value;
      BelowParent(rows, shop, id, r);
      ChainAbove(rows, r, id);
      MoveReplantsSubtree(rows, shop, id, target, p);
      var n := |Ancestors(rows, id)|;
      assert Ancestors(rows, r)[n..] == (if p == id then [] else Ancestors(rows, p)[n..]) + [p];
    } else {
      OthersKeepChain(rows, shop, id, target, r);
    }
  }

  lemma {:induction false} OthersKeepChain(rows: Rows, shop: string, id: string, target: Option<string>, r: string)
    requires Good(rows) && MayMove(rows, shop, id, target) && r in rows && !rows[r].isDeleted
    requires r != id && !IsBelow(rows, shop, id, r)
    ensures var after := AfterMove(rows, shop, id, target);
      Good(after) && r in after && !after[r].isDeleted && Ancestors(after, r) == Ancestors(rows, r)
    decreases rows[r].depth
  {
    hide Replanted;
    MoveKeepsTree(rows, shop, id, target);
    MoveRewrites(rows, shop, id, target, id);
    MoveRewrites(rows, shop, id, target, r);
    assert WellPlaced(rows, r);
    if rows[r].parentId.Some? {
      BelowParent(rows, shop, id, r);
      OthersKeepChain(rows, shop, id, target, rows[r].parentId.value);
    }
  }

  /**
   * A move of a live category to a different, live parent is refused exactly
   * when that parent is below it, and otherwise does what `AfterMove` says.
   */
  lemma {:induction false} MoveIsRefusedExactly(rows: Rows, shop: string, id: string, target: Option<string>)
    requires Good(rows) && Live(rows, shop, id) && target != Some(id) && target != rows[id].parentId
    requires target.Some? ==> Live(rows, shop, target.value)
    ensures MovedTo(rows, shop, id, target) == Err(UnderOwnChild) <==> target.Some? && id in Ancestors(rows, target.value)
    ensures MovedTo(rows, shop, id, target) != Err(UnderOwnChild) ==>
      MayMove(rows, shop, id, target) && MovedTo(rows, shop, id, target) == Ok(AfterMove(rows, shop, id, target))
  {
    hide Ancestors, Contains, Replanted, WellPlaced;
    if target.Some? {
      MatchIsDescent(rows, id, target.value);
    }
  }

  lemma {:induction false} CreationKeepsTree(rows: Rows, shop: string, id: string, parentId: Option<string>)
    requires Good(rows) && IsId(id) && Created(rows, shop, id, parentId).Ok?
    ensures Good(Created(rows, shop, id, parentId).value)
  {
    var after := Created(rows, shop, id, parentId).value;
    forall r | r in after && !after[r].isDeleted ensures WellPlaced(after, r) {
      if r != id {
        assert WellPlaced(rows, r);
      }
    }
  }

  /** A category with live children stays: their paths go through it. */
  lemma {:induction false} DeletionKeepsTree(rows: Rows, shop: string, id: string)
    requires Good(rows) && SoftDeleted(rows, shop, id).Ok?
    ensures Good(SoftDeleted(rows, shop, id).value)
  {
    var after := SoftDeleted(rows, shop, id).value;
    forall r | r in after && !after[r].isDeleted ensures WellPlaced(after, r) {
      assert WellPlaced(rows, r);
      assert rows[r].parentId == Some(id) ==> !Live(rows, shop, r);
    }
  }

  datatype Op =
    | Create(shop: string, id: string, parentId: Option<string>)
    | Update(shop: string, id: string, target: Option<Option<string>>)
    | Delete(shop: string, id: string)

  function Or(r: Result<Rows, Error>, rows: Rows): Rows { if r.Ok? then r.value else rows }

  /** The rows after an operation; a refused one changes nothing, and generated ids hold no separator. */
  function Step(rows: Rows, op: Op): Rows {
    match op
    case Create(shop, id, parentId) => if IsId(id) then Or(Created(rows, shop, id, parentId), rows) else rows
    case Update(shop, id, target) => Or(Updated(rows, shop, id, target), rows)
    case Delete(shop, id) => Or(SoftDeleted(rows, shop, id), rows)
  }

  function Run(rows: Rows, ops: seq<Op>): Rows {
    if ops == [] then rows else Step(Run(rows, ops[..|ops| - 1]), ops[|ops| - 1])
  }

  lemma {:induction false} StepKeepsTree(rows: Rows, op: Op)
    requires Good(rows)
    ensures Good(Step(rows, op))
  {
    hide Good, Ancestors, Contains, Replanted, Created, SoftDeleted;
    match op
    case Create(shop, id, parentId) =>
      if IsId(id) && Created(rows, shop, id, parentId).Ok? {
        CreationKeepsTree(rows, shop, id, parentId);
      }
    case Delete(shop, id) =>
      if SoftDeleted(rows, shop, id).Ok? {
        DeletionKeepsTree(rows, shop, id);
      }
    case Update(shop, id, move) =>
      if move.Some? && MovedTo(rows, shop, id, move.value).Ok? && MovedTo(rows, shop, id, move.value).value != rows {
        MoveIsRefusedExactly(rows, shop, id, move.value);
        MoveKeepsTree(rows, shop, id, move.value);
      }
  }

  /**
   * After any run of creations, moves and deletions every live category's path
   * is exactly its chain of live ancestors and its depth the chain's length,
   * and no category is above itself.
   */
  lemma {:induction false} EveryRunIsATree(ops: seq<Op>, id: string)
    ensures Good(Run(map[], ops))
    ensures var rows := Run(map[], ops);
      id in rows && !rows[id].isDeleted ==>
        var chain := Ancestors(rows, id);
        rows[id].path == Render(chain) && rows[id].depth == |chain| && id !in chain
        && forall i | 0 <= i < |chain| :: Live(rows, rows[id].shop, chain[i])
  {
    hide Good, Ancestors, Render, Step;
    if ops == [] {
      NoRowsAreATree();
    } else {
      EveryRunIsATree(ops[..|ops| - 1], id);
      StepKeepsTree(Run(map[], ops[..|ops| - 1]), ops[|ops| - 1]);
    }
    var rows := Run(map[], ops);
    if id in rows && !rows[id].isDeleted {
      PathIsAncestry(rows, id);
    }
  }

  lemma {:induction false} NoRowsAreATree()
    ensures Good(map[])
  {}
}
