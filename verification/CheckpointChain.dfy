/** The walk from a rollback checkpoint to its root, and the safety resolution that depends on it. */
module CheckpointChain {
  import opened Canonical

  /** `sound` is the verdict of the observation's own validation, `typed` whether its trimmed type is
      non-empty, `production` whether its type is "Production" in any case. */
  datatype Checkpoint = Checkpoint(
    id: string, vmId: string, parentId: string, sound: bool, typed: bool, production: bool)

  type Index = map<string, Checkpoint>

  predicate Acceptable(c: Checkpoint, target: string, requireProduction: bool) {
    c.sound && c.vmId == target && c.typed && (requireProduction ==> c.production)
  }

  // ---------- Parent walks ----------

  /** `walk` follows parents from its first element, never meeting an ID twice. */
  ghost predicate Walk(walk: seq<Checkpoint>, index: Index) {
    && walk != []
    && (forall i :: 0 <= i < |walk| - 1 ==> IsParent(walk[i + 1], walk[i], index))
    && forall i, j :: 0 <= i < j < |walk| ==> walk[i].id != walk[j].id
  }

  predicate IsParent(parent: Checkpoint, child: Checkpoint, index: Index) {
    child.parentId != "" && child.parentId in index && index[child.parentId] == parent
  }

  /** A walk that ends at a root and accepts every checkpoint on the way. */
  ghost predicate GoodChain(walk: seq<Checkpoint>, start: Checkpoint, index: Index, target: string, requireProduction: bool) {
    && Walk(walk, index)
    && walk[0] == start
    && walk[|walk| - 1].parentId == ""
    && forall c :: c in walk ==> Acceptable(c, target, requireProduction)
  }

  ghost predicate HasGoodChain(start: Checkpoint, index: Index, target: string, requireProduction: bool) {
    exists walk :: GoodChain(walk, start, index, target, requireProduction)
  }

  /** Walks from one checkpoint are determined: two of them agree as far as both go. */
  lemma {:induction false} WalksAgree(a: seq<Checkpoint>, b: seq<Checkpoint>, index: Index, i: nat)
    requires Walk(a, index) && Walk(b, index) && a[0] == b[0] && i < |a| && i < |b|
    ensures a[i] == b[i]
    decreases i
  {
    if i > 0 {
      WalksAgree(a, b, index, i - 1);
      assert IsParent(a[i - 1 + 1], a[i - 1], index) && IsParent(b[i - 1 + 1], b[i - 1], index);
    }
  }

  /** A good chain runs along any walk from its start, which it outlasts unless the walk ends at the root. */
  lemma GoodChainCovers(walk: seq<Checkpoint>, start: Checkpoint, index: Index, target: string, requireProduction: bool)
    requires Walk(walk, index) && walk[0] == start && HasGoodChain(start, index, target, requireProduction)
    ensures
      var last := walk[|walk| - 1];
      && Acceptable(last, target, requireProduction)
      && (last.parentId != "" ==>
            last.parentId in index && forall c :: c in walk ==> c.id != index[last.parentId].id)
  {
    var chain :| GoodChain(chain, start, index, target, requireProduction);
    forall i | 0 <= i < |walk| - 1 ensures walk[i].parentId != "" { assert IsParent(walk[i + 1], walk[i], index); }
    if |walk| >= |chain| { WalksAgree(walk, chain, index, |chain| - 1); }
    assert |walk| <= |chain|;
    forall i | 0 <= i < |walk| ensures walk[i] == chain[i] { WalksAgree(walk, chain, index, i); }
    var last := walk[|walk| - 1];
    assert last in chain;
    if last.parentId != "" {
      assert |walk| < |chain| && IsParent(chain[|walk| - 1 + 1], chain[|walk| - 1], index);
    }
  }

  ghost function IdsOf(index: Index): set<string> { set key | key in index :: index[key].id }

  /** The loop is about to look at `checkpoint`, having accepted the walk that leads to it. */
  ghost predicate Trail(walk: seq<Checkpoint>, checkpoint: Checkpoint, start: Checkpoint, index: Index, target: string, requireProduction: bool) {
    if walk == [] then checkpoint == start
    else
      && Walk(walk, index) && walk[0] == start
      && IsParent(checkpoint, walk[|walk| - 1], index)
      && forall c :: c in walk ==> Acceptable(c, target, requireProduction)
  }

  ghost function Ids(walk: seq<Checkpoint>): set<string> { set w | w in walk :: w.id }

  lemma TrailGrows(walk: seq<Checkpoint>, c: Checkpoint, start: Checkpoint, index: Index, target: string, requireProduction: bool)
    requires Trail(walk, c, start, index, target, requireProduction) && c.id !in Ids(walk)
    ensures Ids(walk + [c]) == Ids(walk) + {c.id}
    ensures Walk(walk + [c], index) && (walk + [c])[0] == start
    ensures HasGoodChain(start, index, target, requireProduction) ==>
              Acceptable(c, target, requireProduction) && (c.parentId != "" ==> c.parentId in index)
    ensures Acceptable(c, target, requireProduction) && c.parentId == "" ==> HasGoodChain(start, index, target, requireProduction)
    ensures Acceptable(c, target, requireProduction) && c.parentId != "" && c.parentId in index ==>
              Trail(walk + [c], index[c.parentId], start, index, target, requireProduction)
  {
    var longer := walk + [c];
    forall i | 0 <= i < |longer| - 1 ensures IsParent(longer[i + 1], longer[i], index) {
      if i < |walk| - 1 { assert IsParent(walk[i + 1], walk[i], index); }
    }
    assert forall w :: w in longer <==> w in walk || w == c;
    if HasGoodChain(start, index, target, requireProduction) {
      GoodChainCovers(longer, start, index, target, requireProduction);
    }
    if Acceptable(c, target, requireProduction) && c.parentId == "" {
      assert GoodChain(longer, start, index, target, requireProduction);
    }
  }

  lemma TrailRepeats(walk: seq<Checkpoint>, c: Checkpoint, start: Checkpoint, index: Index, target: string, requireProduction: bool)
    requires Trail(walk, c, start, index, target, requireProduction) && c.id in Ids(walk)
    ensures !HasGoodChain(start, index, target, requireProduction)
  {
    if HasGoodChain(start, index, target, requireProduction) {
      GoodChainCovers(walk, start, index, target, requireProduction);
    }
  }

  /** The seen-set walk terminates, since every further step meets an unseen ID of the index, and answers true
      exactly when a good chain exists. */
  method ValidCheckpointChain(start: Checkpoint, index: Index, target: string, requireProduction: bool) returns (valid: bool)
    ensures valid <==> HasGoodChain(start, index, target, requireProduction)
  {
    var seen: set<string> := {};
    var checkpoint := start;
    ghost var walk: seq<Checkpoint> := [];
    while true
      invariant seen == Ids(walk)
      invariant Trail(walk, checkpoint, start, index, target, requireProduction)
      decreases |IdsOf(index) - seen|, walk == []
    {
      if checkpoint.id in seen {
        TrailRepeats(walk, checkpoint, start, index, target, requireProduction);
        return false;
      }
      TrailGrows(walk, checkpoint, start, index, target, requireProduction);
      Unseen(index, seen, checkpoint.id, walk != []);
      seen := seen + {checkpoint.id};
      if !Acceptable(checkpoint, target, requireProduction) { return false; }
      if checkpoint.parentId == "" { return true; }
      if checkpoint.parentId !in index { return false; }
      walk := walk + [checkpoint];
      checkpoint := index[checkpoint.parentId];
    }
  }

  lemma Unseen(index: Index, seen: set<string>, id: string, indexed: bool)
    requires id !in seen && (indexed ==> id in IdsOf(index))
    ensures |IdsOf(index) - (seen + {id})| <= |IdsOf(index) - seen|
    ensures indexed ==> |IdsOf(index) - (seen + {id})| < |IdsOf(index) - seen|
  {
    var left := IdsOf(index) - seen;
    assert IdsOf(index) - (seen + {id}) == left - {id};
  }

  /** In an index keyed by ID the repetition check only ever stops walks that reach no root: a walk that
      meets an ID twice goes on for ever. */
  ghost predicate Keyed(index: Index) { forall key :: key in index ==> index[key].id == key }

  /** `steps` parents up from a checkpoint, if there are so many. */
  function Ancestor(start: Checkpoint, index: Index, steps: nat): Option<Checkpoint> {
    if steps == 0 then Some(start)
    else
      match Ancestor(start, index, steps - 1)
      case None => None
      case Some(c) => if c.parentId != "" && c.parentId in index then Some(index[c.parentId]) else None
  }

  lemma {:induction false} AncestorsCompose(start: Checkpoint, index: Index, a: nat, b: nat)
    requires Ancestor(start, index, a).Some?
    ensures Ancestor(start, index, a + b) == Ancestor(Ancestor(start, index, a).value, index, b)
    decreases b
  {
    if b > 0 { AncestorsCompose(start, index, a, b - 1); }
  }

  lemma {:induction false} AncestorsBelow(start: Checkpoint, index: Index, a: nat, b: nat)
    requires a <= b && Ancestor(start, index, b).Some?
    ensures Ancestor(start, index, a).Some?
    decreases b - a
  {
    if a < b { AncestorsBelow(start, index, a + 1, b); }
  }

  /** A root is reached by no path that repeats a checkpoint. */
  lemma {:induction false} RootPathRepeatsNothing(start: Checkpoint, index: Index, i: nat, j: nat, root: nat)
    requires i < j <= root && Ancestor(start, index, root).Some? && Ancestor(start, index, root).value.parentId == ""
    ensures Ancestor(start, index, i) != Ancestor(start, index, j)
    decreases root - j
  {
    AncestorsBelow(start, index, i, root);
    AncestorsBelow(start, index, j, root);
    AncestorsBelow(start, index, i + 1, root);
    if j < root {
      AncestorsBelow(start, index, j + 1, root);
      RootPathRepeatsNothing(start, index, i + 1, j + 1, root);
    }
  }

  ghost predicate ReachesRoot(start: Checkpoint, index: Index, steps: nat, target: string, requireProduction: bool) {
    && Ancestor(start, index, steps).Some? && Ancestor(start, index, steps).value.parentId == ""
    && forall i :: 0 <= i <= steps && Ancestor(start, index, i).Some? ==>
         var c := Ancestor(start, index, i).value;
         c.vmId == target && c.sound && c.typed && (requireProduction ==> c.production)
  }

  /** In a keyed index that holds the start, the walk's answer needs no mention of repetition. */
  lemma KeyedIndexNeedsNoRepetitionCheck(start: Checkpoint, index: Index, target: string, requireProduction: bool)
    requires Keyed(index) && start.id in index && index[start.id] == start
    ensures HasGoodChain(start, index, target, requireProduction)
            <==> exists steps :: ReachesRoot(start, index, steps, target, requireProduction)
  {
    if HasGoodChain(start, index, target, requireProduction) {
      var chain :| GoodChain(chain, start, index, target, requireProduction);
      forall i | 0 <= i < |chain| ensures Ancestor(start, index, i) == Some(chain[i]) && Acceptable(chain[i], target, requireProduction) {
        ChainIsAncestry(chain, index, i);
        assert chain[i] in chain;
      }
      assert ReachesRoot(start, index, |chain| - 1, target, requireProduction);
    }
    if steps :| ReachesRoot(start, index, steps, target, requireProduction) {
      AncestryIsChain(start, index, steps, target, requireProduction);
    }
  }

  lemma {:induction false} ChainIsAncestry(chain: seq<Checkpoint>, index: Index, i: nat)
    requires Walk(chain, index) && i < |chain|
    ensures Ancestor(chain[0], index, i) == Some(chain[i])
    decreases i
  {
    if i > 0 {
      ChainIsAncestry(chain, index, i - 1);
      assert IsParent(chain[i - 1 + 1], chain[i - 1], index);
    }
  }

  lemma AncestryIsChain(start: Checkpoint, index: Index, steps: nat, target: string, requireProduction: bool)
    requires Keyed(index) && start.id in index && index[start.id] == start
    requires ReachesRoot(start, index, steps, target, requireProduction)
    ensures HasGoodChain(start, index, target, requireProduction)
  {
    forall i | 0 <= i <= steps ensures Ancestor(start, index, i).Some? { AncestorsBelow(start, index, i, steps); }
    var chain := seq(steps + 1, i requires 0 <= i <= steps => Ancestor(start, index, i).value);
    forall i | 0 <= i < |chain| - 1 ensures IsParent(chain[i + 1], chain[i], index) {
      assert chain[i + 1] == Ancestor(start, index, i + 1).value;
    }
    forall i, j | 0 <= i < j < |chain| ensures chain[i].id != chain[j].id {
      RootPathRepeatsNothing(start, index, i, j, steps);
      IndexedAncestor(start, index, i);
      IndexedAncestor(start, index, j);
    }
    assert GoodChain(chain, start, index, target, requireProduction);
  }

  lemma {:induction false} IndexedAncestor(start: Checkpoint, index: Index, i: nat)
    requires Keyed(index) && start.id in index && index[start.id] == start && Ancestor(start, index, i).Some?
    ensures var c := Ancestor(start, index, i).value; c.id in index && index[c.id] == c
  {
    if i > 0 { AncestorsBelow(start, index, i - 1, i); }
  }

  // ---------- Safety resolution ----------

  datatype Config = Config(contained: bool, rollbackCheckpointId: string, requireProduction: bool)

  datatype Resolution = Resolution(opClass: string, available: bool, verified: bool, rollbackRef: string, contained: bool)

  const DESTRUCTIVE := Resolution("destructive_privileged", false, false, "", false)

  /** The last observation listed under each ID. */
  ghost predicate LatestById(index: Index, listed: seq<Checkpoint>) {
    && (forall c :: c in listed ==> c.id in index)
    && forall id :: id in index ==> LastListed(index[id], id, listed)
  }

  ghost predicate LastListed(c: Checkpoint, id: string, listed: seq<Checkpoint>) {
    c.id == id && exists i :: 0 <= i < |listed| && listed[i] == c && forall j :: i < j < |listed| ==> listed[j].id != id
  }

  lemma IndexNext(index: Index, listed: seq<Checkpoint>, c: Checkpoint)
    requires LatestById(index, listed)
    ensures LatestById(index[c.id := c], listed + [c])
  {
    var next := index[c.id := c];
    forall id | id in next ensures LastListed(next[id], id, listed + [c]) {
      if id == c.id {
        assert (listed + [c])[|listed|] == c;
      } else {
        assert LastListed(index[id], id, listed);
        var k :| 0 <= k < |listed| && listed[k] == index[id] && forall j :: k < j < |listed| ==> listed[j].id != id;
        assert (listed + [c])[k] == index[id];
      }
    }
  }

  method IndexById(listed: seq<Checkpoint>) returns (index: Index)
    ensures LatestById(index, listed) && Keyed(index)
  {
    index := map[];
    for i := 0 to |listed|
      invariant LatestById(index, listed[..i])
    {
      IndexNext(index, listed[..i], listed[i]);
      assert listed[..i + 1] == listed[..i] + [listed[i]];
      index := index[listed[i].id := listed[i]];
    }
    assert listed[..|listed|] == listed;
    assert forall id :: id in index ==> LastListed(index[id], id, listed);
  }

  /** The configured checkpoint is listed, and a good chain leads from it to a root. */
  ghost predicate Recoverable(target: string, config: Config, listed: seq<Checkpoint>) {
    && config.rollbackCheckpointId != ""
    && exists index :: LatestById(index, listed) && config.rollbackCheckpointId in index
         && HasGoodChain(index[config.rollbackCheckpointId], index, target, config.requireProduction)
  }

  /** A target is recoverable exactly if its rollback checkpoint is listed and, going from parent to parent through the
      last observations under each ID, a root is reached past nothing but sound, typed checkpoints of this very
      target, all of them production ones if that is required. */
  lemma RecoverableExactly(target: string, config: Config, listed: seq<Checkpoint>, index: Index)
    requires LatestById(index, listed)
    ensures Recoverable(target, config, listed) <==>
              && config.rollbackCheckpointId != "" && config.rollbackCheckpointId in index
              && exists steps :: ReachesRoot(index[config.rollbackCheckpointId], index, steps, target, config.requireProduction)
  {
    forall other | LatestById(other, listed) ensures other == index { LatestIsUnique(other, index, listed); }
    forall id | id in index ensures index[id].id == id { assert LastListed(index[id], id, listed); }
    if config.rollbackCheckpointId in index {
      KeyedIndexNeedsNoRepetitionCheck(index[config.rollbackCheckpointId], index, target, config.requireProduction);
    }
  }

  lemma LatestIsUnique(a: Index, b: Index, listed: seq<Checkpoint>)
    requires LatestById(a, listed) && LatestById(b, listed)
    ensures a == b
  {
    forall id | id in a ensures id in b && b[id] == a[id] { SameLatest(a, b, listed, id); }
    forall id | id in b ensures id in a { SameLatest(b, a, listed, id); }
  }

  lemma SameLatest(a: Index, b: Index, listed: seq<Checkpoint>, id: string)
    requires LatestById(a, listed) && LatestById(b, listed) && id in a
    ensures id in b && b[id] == a[id]
  {
    assert LastListed(a[id], id, listed);
    assert a[id] in listed;
    assert LastListed(b[id], id, listed);
  }

  /** `config` is None when it cannot be loaded and `listed` is None when the backend cannot list. A target is
      reversible only when it is contained and recoverable, and a rollback reference is offered only when the
      target is recoverable. */
  method ResolveSafety(target: string, config: Option<Config>, listed: Option<seq<Checkpoint>>) returns (r: Resolution)
    ensures
      r == if config.Some? && listed.Some? && Recoverable(target, config.value, listed.value) then
             Resolution(if config.value.contained then "reversible_mutation" else "destructive_privileged",
                        true, true, config.value.rollbackCheckpointId, config.value.contained)
           else DESTRUCTIVE
  {
    if config.None? { return DESTRUCTIVE; }
    var cfg := config.value;
    if cfg.rollbackCheckpointId == "" { return DESTRUCTIVE; }
    if listed.None? || listed.value == [] { return DESTRUCTIVE; }
    var index := IndexById(listed.value);
    forall other | LatestById(other, listed.value) ensures other == index { LatestIsUnique(other, index, listed.value); }
    if cfg.rollbackCheckpointId !in index { return DESTRUCTIVE; }
    var valid := ValidCheckpointChain(index[cfg.rollbackCheckpointId], index, target, cfg.requireProduction);
    if !valid { return DESTRUCTIVE; }
    return Resolution(if cfg.contained then "reversible_mutation" else "destructive_privileged",
                      true, true, cfg.rollbackCheckpointId, cfg.contained);
  }
}
