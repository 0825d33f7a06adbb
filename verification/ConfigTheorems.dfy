/** The list operations are the map operations, in every run. */
module ConfigTheorems {
  import opened ConfigModel

  // ------------------------------------------------------------- the view

  lemma {:induction false} ViewFacts(s: seq<ServerConfig>)
    ensures forall id: Long :: id in View(s).entries <==> Has(s, id)
    ensures forall id: Long :: id in View(s).entries ==> View(s).entries[id].id == id
    ensures forall id: Long :: id in View(s).order <==> id in View(s).entries
    decreases |s|
  {
    if s != [] {
      ViewFacts(Init(s));
      HasLast(s);
    }
  }

  lemma HasLast(s: seq<ServerConfig>)
    requires s != []
    ensures forall id: Long :: Has(s, id) <==> Has(Init(s), id) || Last(s).id == id
  {
    assert s == Init(s) + [Last(s)];
  }

  lemma PushView(s: seq<ServerConfig>, c: ServerConfig)
    ensures View(s + [c]) == Enter(View(s), c)
    ensures Init(s + [c]) == s && Last(s + [c]) == c
  {
    assert Init(s + [c]) == s;
  }

  /** `getConfigById` is a lookup in the map. */
  lemma {:induction false} FindIsLookup(s: seq<ServerConfig>, id: Long)
    ensures Find(s, id) == Lookup(View(s), id)
    decreases |s|
  {
    if s != [] {
      FindIsLookup(Init(s), id);
      ViewFacts(Init(s));
    }
  }

  /** It returns the configuration at the first position that has the id. */
  lemma {:induction false} FindIsFirst(s: seq<ServerConfig>, k: nat)
    requires k < |s| && forall j :: 0 <= j < k ==> s[j].id != s[k].id
    ensures Find(s, s[k].id) == Some(s[k])
    decreases |s|
  {
    if k < |s| - 1 {
      assert Init(s)[k] == s[k];
      assert Has(Init(s), s[k].id);
      FindIsFirst(Init(s), k);
    }
  }

  // ----------------------------------------------------- removing duplicates

  /** The positions that are the first of their id. */
  function Firsts(s: seq<ServerConfig>): seq<nat>
    decreases |s|
  {
    if s == [] then []
    else if Has(Init(s), Last(s).id) then Firsts(Init(s))
    else Firsts(Init(s)) + [|s| - 1]
  }

  lemma {:induction false} FirstsMembers(s: seq<ServerConfig>, i: nat)
    requires i < |s|
    ensures i in Firsts(s) <==> !Has(s[..i], s[i].id)
    ensures forall k :: k in Firsts(s) ==> k < |s|
    decreases |s|
  {
    if i < |s| - 1 {
      FirstsMembers(Init(s), i);
      assert Init(s)[..i] == s[..i];
    } else if i > 0 {
      FirstsMembers(Init(s), 0);
    }
  }

  /** `removeDuplicates` keeps exactly the configurations that are the first of
      their id, in their order. */
  lemma {:induction false} DedupKeepsFirsts(s: seq<ServerConfig>, i: nat)
    ensures |Firsts(s)| == |Dedup(s)|
    ensures forall k :: 0 <= k < |Firsts(s)| ==> Firsts(s)[k] < |s| && Dedup(s)[k] == s[Firsts(s)[k]]
    ensures forall k, l :: 0 <= k < l < |Firsts(s)| ==> Firsts(s)[k] < Firsts(s)[l]
    ensures i < |s| ==> (i in Firsts(s) <==> !Has(s[..i], s[i].id))
    decreases |s|
  {
    if s != [] {
      DedupKeepsFirsts(Init(s), i);
      if i < |s| { FirstsMembers(s, i); }
    }
  }

  lemma {:induction false} DedupFacts(s: seq<ServerConfig>)
    ensures UniqueIds(Dedup(s))
    ensures View(Dedup(s)) == View(s)
    ensures forall id: Long :: Has(Dedup(s), id) <==> Has(s, id)
    decreases |s|
  {
    if s != [] {
      DedupFacts(Init(s));
      HasLast(s);
      ViewFacts(Init(s));
      if !Has(Init(s), Last(s).id) {
        PushView(Dedup(Init(s)), Last(s));
        HasLast(Dedup(s));
        assert forall i :: 0 <= i < |Dedup(Init(s))| ==> Dedup(Init(s))[i] in Dedup(Init(s));
      }
    }
  }

  lemma {:induction false} DedupOfUnique(s: seq<ServerConfig>)
    requires UniqueIds(s)
    ensures Dedup(s) == s && View(s).order == Ids(s)
    decreases |s|
  {
    if s != [] {
      DedupOfUnique(Init(s));
      ViewFacts(Init(s));
      assert !Has(Init(s), Last(s).id);
    }
  }

  /** It gives unique ids, is idempotent, keeps the ids, and no lookup by id can
      tell the difference. */
  lemma RemoveDuplicatesIsInvisible(s: seq<ServerConfig>, id: Long)
    ensures UniqueIds(Dedup(s)) && Dedup(Dedup(s)) == Dedup(s)
    ensures Has(Dedup(s), id) <==> Has(s, id)
    ensures Find(Dedup(s), id) == Find(s, id)
  {
    DedupFacts(s);
    DedupOfUnique(Dedup(s));
    FindIsLookup(s, id);
    FindIsLookup(Dedup(s), id);
  }

  // -------------------------------------------------------------- refinement

  lemma OmitLast(order: seq<Long>, last: Long, id: Long)
    ensures Omit(order + [last], id) == if last == id then Omit(order, id) else Omit(order, id) + [last]
  {
    assert (order + [last])[..|order|] == order;
  }

  /** Deleting commutes with entering, or undoes it. */
  lemma DeleteAfterEnter(m: OrderedMap, c: ServerConfig, id: Long)
    ensures MapDelete(Enter(m, c), id) == if c.id == id then MapDelete(m, id) else Enter(MapDelete(m, id), c)
  {
    OmitLast(m.order, c.id, id);
    if c.id == id {
      assert m.entries[c.id := c] - {id} == m.entries - {id};
    } else {
      assert m.entries[c.id := c] - {id} == (m.entries - {id})[c.id := c];
    }
  }

  lemma {:induction false} WithoutRefines(s: seq<ServerConfig>, id: Long)
    ensures View(Without(s, id)) == MapDelete(View(s), id)
    decreases |s|
  {
    if s != [] {
      WithoutRefines(Init(s), id);
      DeleteAfterEnter(View(Init(s)), Last(s), id);
      if Last(s).id != id {
        PushView(Without(Init(s), id), Last(s));
      }
    }
  }

  lemma {:induction false} ReplaceRefines(s: seq<ServerConfig>, c: ServerConfig)
    ensures View(Replace(s, c)) == MapUpdate(View(s), c)
    decreases |s|
  {
    if s != [] {
      var last := Last(s);
      ViewFacts(Init(s));
      if !Has(Init(s), c.id) && last.id == c.id {
        PushView(Init(s), c);
      } else {
        ReplaceRefines(Init(s), c);
        PushView(Replace(Init(s), c), last);
      }
    }
  }

  /** One operation on any list, duplicates included, is that operation on the
      ordered first-wins map. */
  lemma OpRefines(s: seq<ServerConfig>, op: Op)
    ensures View(ListAfter(s, op)) == MapApply(View(s), op)
  {
    ViewFacts(s);
    match op
    case OpAdd(c, now) =>
      PushView(s, Stamped(c, now));
      DedupFacts(s + [Stamped(c, now)]);
    case OpUpdate(c) =>
      ReplaceRefines(s, c);
      DedupFacts(Replace(s, c));
    case OpDelete(id) =>
      WithoutRefines(s, id);
      DedupFacts(Without(s, id));
    case OpSelect(_) =>
  }

  /** Every run of operations from any loaded list agrees with the map on every
      id, and keeps its order. */
  lemma {:induction false} RunRefinesMap(st: Store, ops: seq<Op>, id: Long)
    ensures View(Run(st, ops).configs) == MapRun(View(st.configs), ops)
    ensures Find(Run(st, ops).configs, id) == Lookup(MapRun(View(st.configs), ops), id)
    decreases |ops|
  {
    if ops == [] {
      FindIsLookup(st.configs, id);
    } else {
      OpRefines(st.configs, ops[0]);
      RunRefinesMap(Apply(st, ops[0]), ops[1..], id);
    }
  }

  // ------------------------------------------------------- invariants of runs

  ghost predicate Persisted(st: Store) { Decode(st.text) == st.configs }

  ghost predicate SelectionListed(st: Store) { st.selected == -1 || Has(st.configs, st.selected) }

  lemma UniqueIsKept(s: seq<ServerConfig>, op: Op)
    ensures Saves(s, op) || UniqueIds(s) ==> UniqueIds(ListAfter(s, op))
    ensures !Saves(s, op) ==> ListAfter(s, op) == s
  {
    match op
    case OpAdd(c, now) => DedupFacts(s + [Stamped(c, now)]);
    case OpUpdate(c) => DedupFacts(Replace(s, c));
    case OpDelete(id) => DedupFacts(Without(s, id));
    case OpSelect(_) =>
  }

  /** Ids are unique from the first save onward, and the listing is then the
      map's entries in the map's order. */
  lemma {:induction false} UniqueFromFirstSave(st: Store, ops: seq<Op>)
    requires ops != [] && (Saves(st.configs, ops[0]) || UniqueIds(st.configs))
    ensures var end := Run(st, ops);
      UniqueIds(end.configs) && Ids(end.configs) == MapRun(View(st.configs), ops).order
    decreases |ops|
  {
    UniqueIsKept(st.configs, ops[0]);
    OpRefines(st.configs, ops[0]);
    var st1 := Apply(st, ops[0]);
    if |ops| == 1 {
      assert ops[1..] == [];
      DedupOfUnique(st1.configs);
    } else {
      UniqueFromFirstSave(st1, ops[1..]);
    }
  }

  /** The stored text always decodes to the list in memory, so a manager opened
      on it later starts with the same list. */
  lemma {:induction false} RunPersists(st: Store, ops: seq<Op>)
    requires Persisted(st)
    ensures Persisted(Run(st, ops))
    decreases |ops|
  {
    if ops != [] {
      UniqueIsKept(st.configs, ops[0]);
      RunPersists(Apply(st, ops[0]), ops[1..]);
    }
  }

  /** An operation that leaves the selection listed: every add, update and
      delete, and selecting -1 or an id that is listed. */
  predicate SelectsListed(s: seq<ServerConfig>, op: Op) {
    op.OpSelect? ==> op.id == -1 || Has(s, op.id)
  }

  lemma SelectionStep(st: Store, op: Op)
    requires SelectionListed(st)
    ensures SelectionListed(Apply(st, op)) <==> SelectsListed(st.configs, op)
  {
    var st' := Apply(st, op);
    OpRefines(st.configs, op);
    ViewFacts(st.configs);
    ViewFacts(st'.configs);
  }

  ghost predicate AllSelectListed(st: Store, ops: seq<Op>)
    decreases |ops|
  {
    ops != [] ==> SelectsListed(st.configs, ops[0]) && AllSelectListed(Apply(st, ops[0]), ops[1..])
  }

  /** The selection stays -1 or listed through every run that selects only what
      is listed. */
  lemma {:induction false} RunKeepsSelection(st: Store, ops: seq<Op>)
    requires SelectionListed(st) && AllSelectListed(st, ops)
    ensures SelectionListed(Run(st, ops))
    decreases |ops|
  {
    if ops != [] {
      SelectionStep(st, ops[0]);
      RunKeepsSelection(Apply(st, ops[0]), ops[1..]);
    }
  }

  lemma {:induction false} RunLast(st: Store, ops: seq<Op>)
    requires ops != []
    ensures Run(st, ops) == Apply(Run(st, ops[..|ops| - 1]), ops[|ops| - 1])
    decreases |ops|
  {
    if |ops| > 1 {
      RunLast(Apply(st, ops[0]), ops[1..]);
      assert ops[1..][..|ops| - 2] == ops[..|ops| - 1][1..];
    }
  }

  /** How many operations there are up to and including the last select. */
  function UpToLastSelect(ops: seq<Op>): (k: nat)
    ensures k <= |ops| && (k > 0 ==> ops[k - 1].OpSelect?)
    ensures forall j :: k <= j < |ops| ==> !ops[j].OpSelect?
    decreases |ops|
  {
    if ops == [] || ops[|ops| - 1].OpSelect? then |ops| else UpToLastSelect(ops[..|ops| - 1])
  }

  /** The id that was last selected, by the run or before it. */
  function Chosen(initial: Long, ops: seq<Op>): Long {
    var k := UpToLastSelect(ops);
    if k == 0 then initial else ops[k - 1].id
  }

  /** That id has been deleted since. */
  ghost predicate DeletedSince(id: Long, ops: seq<Op>) {
    exists j :: UpToLastSelect(ops) <= j < |ops| && ops[j] == OpDelete(id)
  }

  /** The selection is a function of the history alone: after every run it is
      the id last selected, unless that id has been deleted since, and -1 then.
      No add, no update and no delete of another id touches it. */
  lemma {:induction false} SelectionIsHistory(st: Store, ops: seq<Op>)
    ensures var id := Chosen(st.selected, ops);
      Run(st, ops).selected == if DeletedSince(id, ops) then -1 else id
    decreases |ops|
  {
    if ops != [] {
      RunLast(st, ops);
      var init, last := ops[..|ops| - 1], ops[|ops| - 1];
      if !last.OpSelect? {
        SelectionIsHistory(st, init);
        var id := Chosen(st.selected, init);
        assert Chosen(st.selected, ops) == id;
        if DeletedSince(id, init) {
          var j :| UpToLastSelect(init) <= j < |init| && init[j] == OpDelete(id);
          assert ops[j] == OpDelete(id);
        }
        if DeletedSince(id, ops) && last != OpDelete(id) {
          var j :| UpToLastSelect(ops) <= j < |ops| && ops[j] == OpDelete(id);
          assert init[j] == OpDelete(id);
        }
        if last == OpDelete(id) { assert ops[|ops| - 1] == OpDelete(id); }
      }
    }
  }

  /** An operation that cannot take effect: adding a present id, updating an
      absent one.  A select touches neither list nor text. */
  predicate NoEffect(s: seq<ServerConfig>, op: Op) {
    match op
    case OpAdd(c, _) => c.id != 0 && Has(s, c.id)
    case OpUpdate(c) => !Has(s, c.id)
    case OpDelete(_) => false
    case OpSelect(_) => true
  }

  /** A run of such operations leaves the list and the stored text as they were,
      even a list that still has duplicates; any other operation rewrites the
      text, and from then on the list is free of them. */
  lemma {:induction false} OnlyEffectsAreSaved(st: Store, ops: seq<Op>)
    requires forall k :: 0 <= k < |ops| ==> NoEffect(st.configs, ops[k])
    ensures Run(st, ops).configs == st.configs && Run(st, ops).text == st.text
    ensures forall op :: !NoEffect(st.configs, op) ==>
      var st' := Apply(Run(st, ops), op); st'.text == Json(st'.configs) && UniqueIds(st'.configs)
    decreases |ops|
  {
    if ops == [] {
      forall op | !NoEffect(st.configs, op) ensures UniqueIds(Apply(st, op).configs) {
        UniqueIsKept(st.configs, op);
      }
    } else {
      UniqueIsKept(st.configs, ops[0]);
      OnlyEffectsAreSaved(Apply(st, ops[0]), ops[1..]);
    }
  }

  /** Adding a present non-zero id changes nothing at all; adding id 0 at a
      moment whose clock value is already an id changes no lookup. */
  lemma AddIsFirstWins(st: Store, c: ServerConfig, now: Long, id: Long)
    ensures c.id != 0 && Has(st.configs, c.id) ==> Apply(st, OpAdd(c, now)) == st
    ensures c.id == 0 && Has(st.configs, now) ==>
      Find(Apply(st, OpAdd(c, now)).configs, id) == Find(st.configs, id)
  {
    OpRefines(st.configs, OpAdd(c, now));
    ViewFacts(st.configs);
    FindIsLookup(st.configs, id);
    FindIsLookup(Apply(st, OpAdd(c, now)).configs, id);
  }
}
