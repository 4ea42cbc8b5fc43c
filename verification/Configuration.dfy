/**
 The pure part of `acp_session.rs`: option ladders, what one configuring turn
 asks for stage by stage, what it records, and the writes that undo it.
 */
module Configuration {
  import opened Wrappers
  import opened Permutations

  type Key = string

  datatype Value = Text(text: string) | Switch(on: bool)

  /** One advertised option. An absent `options` array is an empty `choices`. */
  datatype Opt = Opt(id: Key, current: Option<Value>, choices: seq<Value>)

  type Ladder = seq<Opt>

  type Store = map<Key, Value>

  /** What a turn displaced, oldest first. */
  type Debt = seq<(Key, Value)>

  datatype Selection = SpawnArgument | AdvertisedOption | LiveOption

  datatype Wanted = Wanted(model: Option<string>, effort: Option<string>, tier: Option<string>)

  datatype Stage = Model | Effort | Fast | Ready

  /** What one stage of `apply_requested_configuration` decides to do. */
  datatype Plan = Skip | Refuse | Write(id: Key, value: Value)

  function FindOption(ladder: Ladder, id: Key): (r: Option<Opt>)
    ensures r.Some? <==> exists o :: o in ladder && o.id == id
    ensures r.Some? ==> r.value in ladder && r.value.id == id
  {
    if ladder == [] then None
    else if ladder[0].id == id then Some(ladder[0])
    else FindOption(ladder[1..], id)
  }

  function CurrentValue(ladder: Ladder, id: Key): Option<Value> {
    var o := FindOption(ladder, id);
    if o.Some? then o.value.current else None
  }

  predicate Offers(ladder: Ladder, id: Key, wanted: string) {
    var o := FindOption(ladder, id);
    o.Some? && Text(wanted) in o.value.choices
  }

  predicate UsesText(ladder: Ladder, id: Key) {
    var o := FindOption(ladder, id);
    o.Some? && o.value.choices != [] && o.value.choices[0].Text?
  }

  function EffortId(ladder: Ladder): Option<Key> {
    if FindOption(ladder, "effort").Some? then Some("effort")
    else if FindOption(ladder, "reasoning").Some? then Some("reasoning")
    else None
  }

  function PlanStage(sel: Selection, wanted: Wanted, stage: Stage, ladder: Ladder): Plan {
    match stage
    case Model =>
      if sel.SpawnArgument? || wanted.model.None? then Skip
      else if sel.AdvertisedOption? && !Offers(ladder, "model", wanted.model.value) then Refuse
      else Write("model", Text(wanted.model.value))
    case Effort =>
      if wanted.effort.None? then Skip
      else
        var id := EffortId(ladder);
        if id.None? || !Offers(ladder, id.value, wanted.effort.value) then Refuse
        else Write(id.value, Text(wanted.effort.value))
    case Fast =>
      if FindOption(ladder, "fast").Some? then
        var fast := wanted.tier == Some("true");
        Write("fast", if UsesText(ladder, "fast") then Text(if fast then "true" else "false") else Switch(fast))
      else if wanted.tier.Some? then Refuse
      else Skip
    case Ready => Skip
  }

  function NextStage(stage: Stage): Stage {
    match stage
    case Model => Effort
    case Effort => Fast
    case Fast => Ready
    case Ready => Ready
  }

  predicate Owed(debt: Debt, id: Key) {
    exists p :: p in debt && p.0 == id
  }

  /** `record`: remember the displaced value once, before the write is made. */
  function Record(debt: Debt, ladder: Ladder, id: Key): Debt {
    var previous := CurrentValue(ladder, id);
    if previous.Some? && !Owed(debt, id) then debt + [(id, previous.value)] else debt
  }

  function Only(debt: Debt, model: bool): Debt {
    if debt == [] then []
    else (if (debt[0].0 == "model") == model then [debt[0]] else []) + Only(debt[1..], model)
  }

  /** `restore_writes`: the model goes back first, the rest in recorded order. */
  function RestoreWrites(debt: Debt): Debt {
    Only(debt, true) + Only(debt, false)
  }

  /** The store a series of `set_config_option` calls leaves behind. */
  function Apply(store: Store, writes: Debt): Store
    decreases |writes|
  {
    if writes == [] then store else Apply(store[writes[0].0 := writes[0].1], writes[1..])
  }

  /** Every advertised option states its value, and that value is the one in `store`. */
  predicate Truthful(ladder: Ladder, store: Store) {
    forall o :: o in ladder ==> o.current.Some? && o.id in store && store[o.id] == o.current.value
  }

  /**
   A model would be written that no ladder entry records: a live ladder's
   model is written unchecked, the opening ladder does not list it, and the
   CLI-wide value is another one.
   */
  predicate Unlisted(sel: Selection, wanted: Wanted, opening: Ladder, init: Store) {
    && sel.LiveOption? && wanted.model.Some? && FindOption(opening, "model").None?
    && !("model" in init && init["model"] == Text(wanted.model.value))
  }

  /** Both stores say the same of `k`. */
  predicate Same(store: Store, init: Store, k: Key) {
    (k in store <==> k in init) && (k in store && k in init ==> store[k] == init[k])
  }

  /** `store` is `init` except perhaps at the keys in `off`. */
  ghost predicate Alike(store: Store, init: Store, off: set<Key>) {
    forall k :: k !in off ==> Same(store, init, k)
  }

  /** `debt` is enough to turn `store` back into `init`, except at the keys in `off`. */
  ghost predicate Owes(store: Store, init: Store, debt: Debt, off: set<Key>) {
    && (forall k :: k !in off ==> Same(store, init, k) || Owed(debt, k))
    && (forall p :: p in debt && p.0 !in off ==> p.0 in init && init[p.0] == p.1)
  }

  /** A ladder a configuring turn may still record from. */
  predicate Usable(ladder: Ladder, init: Store, debt: Debt, off: set<Key>) {
    forall o :: o in ladder ==>
      o.current.Some? && (o.id in off || Owed(debt, o.id) || (o.id in init && o.current.value == init[o.id]))
  }

  /** Writing `value` to `id` leaves the debt enough. */
  predicate Covered(id: Key, value: Value, init: Store, debt: Debt, off: set<Key>) {
    id in off || Owed(debt, id) || (id in init && init[id] == value)
  }

  /** The write of `value` to `id` is recorded, or it is a model no ladder lists: unlisted, or the one in effect. */
  predicate Accounted(sel: Selection, wanted: Wanted, opening: Ladder, init: Store, id: Key, value: Value, debt: Debt) {
    || Owed(debt, id)
    || (id == "model" && (Unlisted(sel, wanted, opening, init) || (id in init && init[id] == value)))
  }

  lemma {:induction false} OnlyMembers(debt: Debt, model: bool)
    ensures forall p :: p in Only(debt, model) <==> p in debt && (p.0 == "model") == model
  {
    if debt != [] {
      OnlyMembers(debt[1..], model);
      assert debt == [debt[0]] + debt[1..];
    }
  }

  lemma {:induction false} OnlyCounts(debt: Debt)
    ensures multiset(Only(debt, true)) + multiset(Only(debt, false)) == multiset(debt)
  {
    if debt != [] {
      OnlyCounts(debt[1..]);
      assert debt == [debt[0]] + debt[1..];
    }
  }

  lemma {:induction false} OnlyAppend(a: Debt, b: Debt, model: bool)
    ensures Only(a + b, model) == Only(a, model) + Only(b, model)
    decreases |a|
  {
    if a == [] {
      assert a + b == b;
    } else {
      OnlyAppend(a[1..], b, model);
      assert (a + b)[0] == a[0] && (a + b)[1..] == a[1..] + b;
      Regroup(if (a[0].0 == "model") == model then [a[0]] else [], Only(a[1..], model), Only(b, model));
    }
  }

  lemma {:induction false} OnlyTwice(debt: Debt, outer: bool, inner: bool)
    ensures Only(Only(debt, inner), outer) == if outer == inner then Only(debt, inner) else []
  {
    if debt != [] {
      OnlyTwice(debt[1..], outer, inner);
      var first := if (debt[0].0 == "model") == inner then [debt[0]] else [];
      OnlyAppend(first, Only(debt[1..], inner), outer);
      assert first != [] ==> first[1..] == [];
    }
  }

  /** The restore list is the recorded list, model entries first, and otherwise in recorded order. */
  lemma {:induction false} RestoreWritesModelFirst(debt: Debt)
    ensures multiset(RestoreWrites(debt)) == multiset(debt)
    ensures forall p :: p in RestoreWrites(debt) <==> p in debt
    ensures forall i, j :: 0 <= i < j < |RestoreWrites(debt)| && RestoreWrites(debt)[j].0 == "model"
              ==> RestoreWrites(debt)[i].0 == "model"
    ensures Only(RestoreWrites(debt), true) == Only(debt, true) && Only(RestoreWrites(debt), false) == Only(debt, false)
  {
    OnlyCounts(debt);
    OnlyMembers(debt, true);
    OnlyMembers(debt, false);
    var r, m := RestoreWrites(debt), |Only(debt, true)|;
    assert forall k :: 0 <= k < m ==> r[k] == Only(debt, true)[k];
    assert forall k :: m <= k < |r| ==> r[k] == Only(debt, false)[k - m];
    RestoreOrder(debt, true);
    RestoreOrder(debt, false);
  }

  lemma {:induction false} RestoreOrder(debt: Debt, model: bool)
    ensures Only(RestoreWrites(debt), model) == Only(debt, model)
  {
    OnlyAppend(Only(debt, true), Only(debt, false), model);
    OnlyTwice(debt, model, true);
    OnlyTwice(debt, model, false);
  }

  lemma {:induction false} OwesRestoreWrites(store: Store, init: Store, debt: Debt, off: set<Key>)
    requires Owes(store, init, debt, off)
    ensures Owes(store, init, RestoreWrites(debt), off)
  {
    RestoreWritesModelFirst(debt);
    forall k | Owed(debt, k) ensures Owed(RestoreWrites(debt), k) {
      var p :| p in debt && p.0 == k;
      assert p in RestoreWrites(debt);
    }
  }

  /** The first owed write is made, or lost: then its key is off. */
  lemma {:induction false} OwesPut(store: Store, init: Store, debt: Debt, off: set<Key>)
    requires Owes(store, init, debt, off) && debt != []
    ensures Owes(store[debt[0].0 := debt[0].1], init, debt[1..], off)
    ensures debt[0].0 in off ==> Owes(store, init, debt[1..], off)
  {
    var next := store[debt[0].0 := debt[0].1];
    assert debt[0] in debt;
    forall k | k !in off && k != debt[0].0 ensures Same(next, init, k) || Owed(debt[1..], k) {
      assert Same(store, init, k) || Owed(debt, k);
      if Owed(debt, k) {
        var p :| p in debt && p.0 == k;
        assert p in debt[1..];
      }
    }
  }

  /** Making every owed write, in any recorded order, gives the initial store back. */
  lemma {:induction false} OwesPaid(store: Store, init: Store, debt: Debt, off: set<Key>)
    requires Owes(store, init, debt, off)
    ensures Alike(Apply(store, debt), init, off)
    decreases |debt|
  {
    if debt != [] {
      OwesPut(store, init, debt, off);
      OwesPaid(store[debt[0].0 := debt[0].1], init, debt[1..], off);
    }
  }

  lemma {:induction false} AlikeAll(store: Store, init: Store)
    requires Alike(store, init, {})
    ensures store == init
  {
    forall k ensures k in store <==> k in init {
      assert Same(store, init, k);
    }
    forall k | k in store ensures store[k] == init[k] {
      assert Same(store, init, k);
    }
  }

  lemma {:induction false} OwedGrows(debt: Debt, ladder: Ladder, id: Key, k: Key)
    requires Owed(debt, k)
    ensures Owed(Record(debt, ladder, id), k)
  {
    var p :| p in debt && p.0 == k;
    assert p in Record(debt, ladder, id);
  }

  /** Recording from a usable ladder keeps the debt complete and covers the advertised key about to be written. */
  lemma {:induction false} RecordCovers(store: Store, init: Store, debt: Debt, ladder: Ladder, id: Key, off: set<Key>)
    requires Owes(store, init, debt, off) && Usable(ladder, init, debt, off)
    ensures Owes(store, init, Record(debt, ladder, id), off)
    ensures Usable(ladder, init, Record(debt, ladder, id), off)
    ensures FindOption(ladder, id).Some? ==> Owed(Record(debt, ladder, id), id)
  {
    var o := FindOption(ladder, id);
    var next := Record(debt, ladder, id);
    if o.Some? && next != debt {
      assert (id, o.value.current.value) in next;
    }
    forall k | Owed(debt, k) ensures Owed(next, k) {
      OwedGrows(debt, ladder, id, k);
    }
  }

  lemma {:induction false} OwesWrite(store: Store, init: Store, debt: Debt, id: Key, value: Value, off: set<Key>)
    requires Owes(store, init, debt, off) && Covered(id, value, init, debt, off)
    ensures Owes(store[id := value], init, debt, off)
  {
    forall k | k !in off ensures Same(store[id := value], init, k) || Owed(debt, k) {
      assert Same(store, init, k) || Owed(debt, k);
    }
  }

  lemma {:induction false} LadderUsable(ladder: Ladder, store: Store, init: Store, debt: Debt, off: set<Key>)
    requires Truthful(ladder, store) && Owes(store, init, debt, off)
    ensures Usable(ladder, init, debt, off)
  {
    forall o | o in ladder && o.id !in off ensures Owed(debt, o.id) || (o.id in init && o.current.value == init[o.id]) {
      assert Same(store, init, o.id) || Owed(debt, o.id);
    }
  }

  /** The one write of an option the ladder does not list is a live model's. */
  lemma {:induction false} UnlistedWrite(sel: Selection, wanted: Wanted, stage: Stage, ladder: Ladder)
    requires PlanStage(sel, wanted, stage, ladder).Write?
    ensures FindOption(ladder, PlanStage(sel, wanted, stage, ladder).id).None? <==>
            stage.Model? && sel.LiveOption? && wanted.model.Some? && FindOption(ladder, "model").None?
  {
  }

  /** Every planned write is accounted for once it is recorded. */
  lemma {:induction false} PlanIsAccounted(sel: Selection, wanted: Wanted, stage: Stage, ladder: Ladder,
                                           opening: Ladder, store: Store, init: Store, debt: Debt, off: set<Key>)
    requires PlanStage(sel, wanted, stage, ladder).Write? && (stage.Model? ==> ladder == opening)
    requires Owes(store, init, debt, off) && Usable(ladder, init, debt, off)
    ensures var plan := PlanStage(sel, wanted, stage, ladder);
      Accounted(sel, wanted, opening, init, plan.id, plan.value, Record(debt, ladder, plan.id))
  {
    UnlistedWrite(sel, wanted, stage, ladder);
    RecordCovers(store, init, debt, ladder, PlanStage(sel, wanted, stage, ladder).id, off);
  }
}
