/**
 What a configuring turn asks for, said over the request, the advertised
 ladder and the store: which option each request names, the value it is given
 and when it is refused.
 */
module ConfigurationRequest {
  import opened Wrappers
  import opened Configuration

  predicate Lists(ladder: Ladder, id: Key) {
    exists o :: o in ladder && o.id == id
  }

  /** The option `id` names: the first one listed under it. */
  ghost predicate Names(ladder: Ladder, id: Key, o: Opt) {
    exists i :: 0 <= i < |ladder| && ladder[i] == o && o.id == id && forall j :: 0 <= j < i ==> ladder[j].id != id
  }

  /** The option `id` names has the text among its choices. */
  ghost predicate HasChoice(ladder: Ladder, id: Key, text: string) {
    exists o :: Names(ladder, id, o) && Text(text) in o.choices
  }

  /** The model is a request of this turn, and not a spawn argument. */
  predicate AsksModel(sel: Selection, wanted: Wanted) {
    !sel.SpawnArgument? && wanted.model.Some?
  }

  /** The requested text goes to `model`, which only an advertised selection looks up first. */
  ghost predicate ModelGranted(sel: Selection, wanted: Wanted, ladder: Ladder, s: Store, s': Store) {
    if !AsksModel(sel, wanted) then s' == s
    else
      && (sel.AdvertisedOption? ==> HasChoice(ladder, "model", wanted.model.value))
      && s' == s["model" := Text(wanted.model.value)]
  }

  /** The requested text goes to `effort` if that is listed, else to `reasoning`, and must be one of its choices. */
  ghost predicate EffortGranted(wanted: Wanted, ladder: Ladder, s: Store, s': Store) {
    if wanted.effort.None? then s' == s
    else
      var id := if Lists(ladder, "effort") then "effort" else "reasoning";
      HasChoice(ladder, id, wanted.effort.value) && s' == s[id := Text(wanted.effort.value)]
  }

  /** A listed `fast` is on exactly if the tier is "true", in text exactly if its first choice is text. */
  ghost predicate FastGranted(wanted: Wanted, ladder: Ladder, s: Store, s': Store) {
    if !Lists(ladder, "fast") then wanted.tier.None? && s' == s
    else
      exists o :: Names(ladder, "fast", o) && "fast" in s' && s' == s["fast" := s'["fast"]]
           && (s'["fast"].Text? <==> o.choices != [] && o.choices[0].Text?)
           && (s'["fast"] == Text("true") || s'["fast"] == Switch(true) <==> wanted.tier == Some("true"))
           && (s'["fast"] == Text("false") || s'["fast"] == Switch(false) <==> wanted.tier != Some("true"))
  }

  ghost predicate StageGranted(sel: Selection, wanted: Wanted, stage: Stage, ladder: Ladder, s: Store, s': Store) {
    match stage
    case Model => ModelGranted(sel, wanted, ladder, s, s')
    case Effort => EffortGranted(wanted, ladder, s, s')
    case Fast => FastGranted(wanted, ladder, s, s')
    case Ready => s' == s
  }

  /** A live harness restates its ladder in the reply to each write; the others are held to the opening one. */
  function LadderAfter(sel: Selection, asked: bool, ladder: Ladder, reply: Ladder): Ladder {
    if sel.LiveOption? && asked then reply else ladder
  }

  /** The ladders the effort and the fast switch are looked up in. */
  function EffortLadder(sel: Selection, wanted: Wanted, opening: Ladder, model: Store -> Ladder, s1: Store): Ladder {
    LadderAfter(sel, AsksModel(sel, wanted), opening, model(s1))
  }

  function FastLadder(sel: Selection, wanted: Wanted, opening: Ladder, model: Store -> Ladder,
                      effort: Store -> Ladder, s1: Store, s2: Store): Ladder {
    LadderAfter(sel, wanted.effort.Some?, EffortLadder(sel, wanted, opening, model, s1), effort(s2))
  }

  /** Every request is granted, one after the other, and turns `s` into `s'`. `model` and `effort` are the replies. */
  ghost predicate Granted(sel: Selection, wanted: Wanted, opening: Ladder, model: Store -> Ladder,
                          effort: Store -> Ladder, s: Store, s': Store) {
    exists s1, s2 ::
      && ModelGranted(sel, wanted, opening, s, s1)
      && EffortGranted(wanted, EffortLadder(sel, wanted, opening, model, s1), s1, s2)
      && FastGranted(wanted, FastLadder(sel, wanted, opening, model, effort, s1, s2), s2, s')
  }

  // ---- the plan grants exactly this ----

  lemma {:induction false} NamesTail(ladder: Ladder, id: Key, o: Opt)
    requires ladder != [] && ladder[0].id != id
    ensures Names(ladder, id, o) <==> Names(ladder[1..], id, o)
  {
    var rest := ladder[1..];
    if Names(rest, id, o) {
      var i :| 0 <= i < |rest| && rest[i] == o && forall j :: 0 <= j < i ==> rest[j].id != id;
      assert ladder[i + 1] == o && forall j :: 1 <= j < i + 1 ==> ladder[j] == rest[j - 1];
    }
    if Names(ladder, id, o) {
      var i :| 0 <= i < |ladder| && ladder[i] == o && forall j :: 0 <= j < i ==> ladder[j].id != id;
      assert rest[i - 1] == o && forall j :: 0 <= j < i - 1 ==> rest[j] == ladder[j + 1];
    }
  }

  lemma {:induction false} FindsFirst(ladder: Ladder, id: Key)
    ensures FindOption(ladder, id).Some? <==> Lists(ladder, id)
    ensures forall o :: FindOption(ladder, id) == Some(o) <==> Names(ladder, id, o)
  {
    if ladder != [] && ladder[0].id != id {
      FindsFirst(ladder[1..], id);
      forall o ensures Names(ladder, id, o) <==> Names(ladder[1..], id, o) {
        NamesTail(ladder, id, o);
      }
    }
  }

  /** The store a stage leaves if its write lands; none if it is refused. */
  function Outcome(plan: Plan, s: Store): Option<Store> {
    match plan
    case Skip => Some(s)
    case Refuse => None
    case Write(id, value) => Some(s[id := value])
  }

  lemma {:induction false} OffersIsChoice(ladder: Ladder, id: Key, text: string)
    ensures Offers(ladder, id, text) <==> HasChoice(ladder, id, text)
  {
    FindsFirst(ladder, id);
  }

  lemma {:induction false} EffortGrants(sel: Selection, wanted: Wanted, ladder: Ladder, s: Store, s': Store)
    ensures Outcome(PlanStage(sel, wanted, Effort, ladder), s) == Some(s') <==> EffortGranted(wanted, ladder, s, s')
  {
    if wanted.effort.Some? {
      FindsFirst(ladder, "effort");
      FindsFirst(ladder, "reasoning");
      OffersIsChoice(ladder, "effort", wanted.effort.value);
      OffersIsChoice(ladder, "reasoning", wanted.effort.value);
    }
  }

  /** A stage writes what was asked for, to the option that was asked for, and is refused exactly if that cannot be. */
  lemma {:induction false} PlanGrants(sel: Selection, wanted: Wanted, stage: Stage, ladder: Ladder, s: Store, s': Store)
    ensures Outcome(PlanStage(sel, wanted, stage, ladder), s) == Some(s') <==>
            StageGranted(sel, wanted, stage, ladder, s, s')
  {
    match stage
    case Model =>
      if wanted.model.Some? {
        OffersIsChoice(ladder, "model", wanted.model.value);
      }
    case Effort => EffortGrants(sel, wanted, ladder, s, s');
    case Fast => FastGrants(sel, wanted, ladder, s, s');
    case Ready =>
  }

  lemma {:induction false} FastGrants(sel: Selection, wanted: Wanted, ladder: Ladder, s: Store, s': Store)
    ensures Outcome(PlanStage(sel, wanted, Fast, ladder), s) == Some(s') <==> FastGranted(wanted, ladder, s, s')
  {
    FindsFirst(ladder, "fast");
    assert "true" != "false" by {
      assert |"true"| == 4;
    }
    if Lists(ladder, "fast") {
      var o := FindOption(ladder, "fast").value;
      assert Names(ladder, "fast", o);
      var value := PlanStage(sel, wanted, Fast, ladder).value;
      if FastGranted(wanted, ladder, s, s') {
        assert s'["fast"] == value;
      }
      if s' == s["fast" := value] {
        assert s' == s["fast" := s'["fast"]];
      }
    }
  }

  // ---- refusals ----

  /** The advertised selection does not offer the model. */
  ghost predicate RefusesModel(sel: Selection, wanted: Wanted, opening: Ladder) {
    sel.AdvertisedOption? && wanted.model.Some? && !HasChoice(opening, "model", wanted.model.value)
  }

  /** There is no effort control, or the one there is does not offer the value. */
  ghost predicate RefusesEffort(wanted: Wanted, ladder: Ladder) {
    wanted.effort.Some? && !HasChoice(ladder, if Lists(ladder, "effort") then "effort" else "reasoning",
                                      wanted.effort.value)
  }

  /** A tier is asked for and there is no fast switch. */
  predicate RefusesFast(wanted: Wanted, ladder: Ladder) {
    wanted.tier.Some? && !Lists(ladder, "fast")
  }

  ghost predicate RefusesStage(sel: Selection, wanted: Wanted, stage: Stage, ladder: Ladder) {
    match stage
    case Model => RefusesModel(sel, wanted, ladder)
    case Effort => RefusesEffort(wanted, ladder)
    case Fast => RefusesFast(wanted, ladder)
    case Ready => false
  }

  /** A stage is refused exactly for these reasons. */
  lemma {:induction false} PlanRefuses(sel: Selection, wanted: Wanted, stage: Stage, ladder: Ladder)
    ensures PlanStage(sel, wanted, stage, ladder).Refuse? <==> RefusesStage(sel, wanted, stage, ladder)
  {
    match stage
    case Model =>
      if wanted.model.Some? {
        OffersIsChoice(ladder, "model", wanted.model.value);
      }
    case Effort =>
      if wanted.effort.Some? {
        FindsFirst(ladder, "effort");
        FindsFirst(ladder, "reasoning");
        OffersIsChoice(ladder, "effort", wanted.effort.value);
        OffersIsChoice(ladder, "reasoning", wanted.effort.value);
      }
    case Fast => FindsFirst(ladder, "fast");
    case Ready =>
  }

  function ModelStore(sel: Selection, wanted: Wanted, s: Store): Store {
    if AsksModel(sel, wanted) then s["model" := Text(wanted.model.value)] else s
  }

  function EffortStore(wanted: Wanted, ladder: Ladder, s: Store): Store {
    if wanted.effort.None? then s
    else s[(if Lists(ladder, "effort") then "effort" else "reasoning") := Text(wanted.effort.value)]
  }

  /** Some request is refused by the ladder it is looked up in. */
  ghost predicate Refused(sel: Selection, wanted: Wanted, opening: Ladder, model: Store -> Ladder,
                          effort: Store -> Ladder, s: Store) {
    var s1 := ModelStore(sel, wanted, s);
    var l1 := EffortLadder(sel, wanted, opening, model, s1);
    var s2 := EffortStore(wanted, l1, s1);
    || RefusesModel(sel, wanted, opening) || RefusesEffort(wanted, l1)
    || RefusesFast(wanted, FastLadder(sel, wanted, opening, model, effort, s1, s2))
  }

  lemma {:induction false} FastCanBeGranted(wanted: Wanted, ladder: Ladder, s: Store) returns (s': Store)
    requires !RefusesFast(wanted, ladder)
    ensures FastGranted(wanted, ladder, s, s')
  {
    var plan := PlanStage(SpawnArgument, wanted, Fast, ladder);
    FindsFirst(ladder, "fast");
    s' := Outcome(plan, s).value;
    FastGrants(SpawnArgument, wanted, ladder, s, s');
  }

  /** All requests are granted together exactly if none of the three is refused. */
  lemma {:induction false} GrantedIffNotRefused(sel: Selection, wanted: Wanted, opening: Ladder,
                                                model: Store -> Ladder, effort: Store -> Ladder, s: Store)
    ensures (exists s' :: Granted(sel, wanted, opening, model, effort, s, s')) <==>
            !Refused(sel, wanted, opening, model, effort, s)
  {
    var s1 := ModelStore(sel, wanted, s);
    var l1 := EffortLadder(sel, wanted, opening, model, s1);
    var s2 := EffortStore(wanted, l1, s1);
    if !Refused(sel, wanted, opening, model, effort, s) {
      var s' := FastCanBeGranted(wanted, FastLadder(sel, wanted, opening, model, effort, s1, s2), s2);
      assert Granted(sel, wanted, opening, model, effort, s, s');
    }
  }

  // ---- what the granted requests leave in the store ----

  /** No request of the turn is about this key. */
  predicate Unasked(sel: Selection, wanted: Wanted, l1: Ladder, l2: Ladder, k: Key) {
    && !(k == "model" && AsksModel(sel, wanted))
    && !(k == "effort" && wanted.effort.Some? && Lists(l1, "effort"))
    && !(k == "reasoning" && wanted.effort.Some? && !Lists(l1, "effort"))
    && !(k == "fast" && Lists(l2, "fast"))
  }

  predicate Holds(store: Store, k: Key, value: Value) {
    k in store && store[k] == value
  }

  /** On in text or as a switch, as the listed option has it. */
  predicate SwitchedOn(store: Store, k: Key) {
    Holds(store, k, Text("true")) || Holds(store, k, Switch(true))
  }

  predicate SwitchedOff(store: Store, k: Key) {
    Holds(store, k, Text("false")) || Holds(store, k, Switch(false))
  }

  /**
   After a granted turn the store holds what was asked for, key by key: the
   model if it is a request of the turn, the effort under the one control in
   force, the fast switch if one is listed, and every other key as it was.
   */
  lemma {:induction false} GrantedMeans(sel: Selection, wanted: Wanted, opening: Ladder, model: Store -> Ladder,
                                        effort: Store -> Ladder, s: Store, s': Store)
    returns (l1: Ladder, l2: Ladder)
    requires Granted(sel, wanted, opening, model, effort, s, s')
    ensures !sel.LiveOption? ==> l1 == opening && l2 == opening
    ensures AsksModel(sel, wanted) ==> Holds(s', "model", Text(wanted.model.value))
    ensures wanted.effort.Some? ==>
      Holds(s', if Lists(l1, "effort") then "effort" else "reasoning", Text(wanted.effort.value))
    ensures Lists(l2, "fast") ==>
      if wanted.tier == Some("true") then SwitchedOn(s', "fast") else SwitchedOff(s', "fast")
    ensures forall k :: Unasked(sel, wanted, l1, l2, k) ==> Same(s', s, k)
  {
    var s1, s2 :| && ModelGranted(sel, wanted, opening, s, s1)
                  && EffortGranted(wanted, EffortLadder(sel, wanted, opening, model, s1), s1, s2)
                  && FastGranted(wanted, FastLadder(sel, wanted, opening, model, effort, s1, s2), s2, s');
    l1 := EffortLadder(sel, wanted, opening, model, s1);
    l2 := FastLadder(sel, wanted, opening, model, effort, s1, s2);
    GrantedParts(sel, wanted, opening, l1, l2, s, s1, s2, s');
  }

  lemma {:induction false} GrantedParts(sel: Selection, wanted: Wanted, opening: Ladder, l1: Ladder, l2: Ladder,
                                        s: Store, s1: Store, s2: Store, s': Store)
    requires ModelGranted(sel, wanted, opening, s, s1)
    requires EffortGranted(wanted, l1, s1, s2) && FastGranted(wanted, l2, s2, s')
    ensures AsksModel(sel, wanted) ==> Holds(s', "model", Text(wanted.model.value))
    ensures wanted.effort.Some? ==>
      Holds(s', if Lists(l1, "effort") then "effort" else "reasoning", Text(wanted.effort.value))
    ensures Lists(l2, "fast") ==>
      if wanted.tier == Some("true") then SwitchedOn(s', "fast") else SwitchedOff(s', "fast")
    ensures forall k :: Unasked(sel, wanted, l1, l2, k) ==> Same(s', s, k)
  {
    KeysDiffer();
    FastMeans(wanted, l2, s2, s');
    forall k | Unasked(sel, wanted, l1, l2, k) ensures Same(s', s, k) {
      assert Same(s', s2, k) && Same(s2, s1, k) && Same(s1, s, k);
    }
    assert Same(s', s2, "model") && Same(s', s2, "effort") && Same(s', s2, "reasoning");
  }

  lemma {:induction false} FastMeans(wanted: Wanted, ladder: Ladder, s: Store, s': Store)
    requires FastGranted(wanted, ladder, s, s')
    ensures Lists(ladder, "fast") ==>
      if wanted.tier == Some("true") then SwitchedOn(s', "fast") else SwitchedOff(s', "fast")
    ensures forall k :: k != "fast" || !Lists(ladder, "fast") ==> Same(s', s, k)
  {
  }

  lemma {:induction false} KeysDiffer()
    ensures "model" != "effort" && "model" != "reasoning" && "model" != "fast"
    ensures "effort" != "reasoning" && "effort" != "fast" && "reasoning" != "fast"
  {
    assert "model"[0] == 'm' && "effort"[0] == 'e' && "reasoning"[0] == 'r' && "fast"[0] == 'f';
  }
}
