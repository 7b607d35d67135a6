/** What the operations of `BindingPatterns` do, said without its step function: which models a pattern selects, and what
    checks, writes, saves, toggles and deletions leave in the table. */
module BindingEffects {
  import opened Wrappers
  import opened BindingPatterns

  /** "*" selects every model, a pattern that ends in "*" those that begin with what comes before it, and any other
      pattern the one model it names. */
  lemma {:induction false} PatternsSelect(stem: string, model: string)
    ensures Matches("*", model)
    ensures stem != "" ==> (Matches(stem + "*", model) <==> stem <= model)
    ensures stem == "" || stem[|stem| - 1] != '*' ==> (Matches(stem, model) <==> stem == model)
  {
    if stem != "" {
      assert (stem + "*")[..|stem|] == stem;
      assert stem + "*" <= model ==> stem <= model;
    }
  }

  /** A save is refused exactly without a channel, an operation or a pattern, or when another rule of the same channel,
      operation and precedence selects a model that it selects too. */
  lemma {:induction false} RefusedExactlyWhenShared(bindings: Bindings, id: BindingId, b: Binding)
    ensures Refusal(bindings, id, b) == Some(MissingIdentity) <==> b.channel == 0 || b.operation == 0 || b.pattern == ""
    ensures b.channel != 0 && b.operation != 0 && b.pattern != "" ==>
      && (Refusal(bindings, id, b).Some? <==> exists other, model :: SharesModel(bindings, id, b, other, model))
      && (Refusal(bindings, id, b).Some? ==> Refusal(bindings, id, b) == Some(PatternConflict))
  {
    hide Overlap, Matches;
    if Clashes(bindings, id, b) {
      var other :| other in bindings && (id == 0 || other != id) && Peers(bindings[other], b)
                   && Overlap(b.pattern, bindings[other].pattern);
      OverlapExactlyWhenShared(b.pattern, bindings[other].pattern);
      var model :| Matches(b.pattern, model) && Matches(bindings[other].pattern, model);
      assert SharesModel(bindings, id, b, other, model);
    }
    forall other, model | SharesModel(bindings, id, b, other, model) ensures Clashes(bindings, id, b) {
      OverlapExactlyWhenShared(b.pattern, bindings[other].pattern);
    }
  }

  predicate SharesModel(bindings: Bindings, id: BindingId, b: Binding, other: BindingId, model: string) {
    other in bindings && (id == 0 || other != id)
    && bindings[other].channel == b.channel && bindings[other].operation == b.operation
    && bindings[other].precedence == b.precedence
    && Matches(b.pattern, model) && Matches(bindings[other].pattern, model)
  }

  /** A save that is not refused, whether in one step or as a check and a later write with nothing in between, adds its
      rule under a fresh id, or replaces the row it names; every other row stays. */
  lemma {:induction false} SavedIsStored(t: Table, request: RequestId, id: BindingId, b: Binding)
    requires Numbered(t) && Refusal(t.bindings, id, b).None?
    ensures var saved := Apply(t, Save(id, b));
      && (id == 0 ==> exists row: BindingId :: row !in t.bindings && row != 0 && saved.bindings == t.bindings[row := b])
      && (id != 0 ==> saved.bindings == t.bindings[id := b]) && saved.ready == t.ready
      && var checked := Apply(t, CheckPeers(request, id, b));
         && checked == t.(ready := checked.ready) && request in checked.ready
         && Apply(checked, Write(request)) == saved.(ready := t.ready - {request})
  {
    hide Refusal;
    assert t.next !in t.bindings && t.next != 0;
    assert Apply(t, CheckPeers(request, id, b)).ready - {request} == t.ready - {request};
  }

  /** A refused save and a refused check change nothing, and neither does a write that nobody prepared. */
  lemma {:induction false} RefusedIsNoChange(t: Table, request: RequestId, id: BindingId, b: Binding)
    requires Refusal(t.bindings, id, b).Some?
    ensures Apply(t, Save(id, b)) == t && Apply(t, CheckPeers(request, id, b)) == t
    ensures request !in t.ready ==> Apply(t, Write(request)) == t
  {
    hide Refusal;
  }

  /** A toggle changes one flag, and a deletion removes one row. */
  lemma {:induction false} OneRowChanges(t: Table, id: BindingId, enabled: bool, other: BindingId)
    ensures var u := Apply(t, SetEnabled(id, enabled));
      && u.bindings.Keys == t.bindings.Keys && (id in t.bindings ==> u.bindings[id] == t.bindings[id].(enabled := enabled))
      && (other in t.bindings && other != id ==> u.bindings[other] == t.bindings[other])
    ensures var u := Apply(t, Delete(id));
      u.bindings.Keys == t.bindings.Keys - {id} && (other in u.bindings ==> u.bindings[other] == t.bindings[other])
  {
  }
}
