/** The click handlers of the data sources' fill layers: a registry, keyed by
    data source id, of the handlers attached for that source, which the
    effect fills for fill layers that exist, prunes of fill layers that are
    gone, and empties on teardown. */
module UseLayerClickHandlers {
  import opened Types
  import opened MapEngine
  import opened MapLayerUtils

  /** What one data source's cleanup closes over: its fill layer and its
      three handlers; the click handler reports `layerType` with the feature. */
  datatype Handlers = Handlers(fillLayerId: string, layerType: LayerType, click: Listener, enter: Listener, leave: Listener)

  /** Three new closures for a data source; each closure is a new function
      object, modelled as the next unused handler token. */
  function NewHandlers(config: DataSourceConfig, next: nat): (h: Handlers)
    ensures h.fillLayerId == FillId(config.id) && h.layerType == config.layerType
    ensures h.click == Listener(Click, h.fillLayerId, next)
    ensures h.enter == Listener(MouseEnter, h.fillLayerId, next + 1)
    ensures h.leave == Listener(MouseLeave, h.fillLayerId, next + 2)
  {
    var fillId := FillId(config.id);
    Handlers(fillId, config.layerType, Listener(Click, fillId, next), Listener(MouseEnter, fillId, next + 1), Listener(MouseLeave, fillId, next + 2))
  }

  function HandlerSet(h: Handlers): set<Listener> {
    {h.click, h.enter, h.leave}
  }

  /** The calls that attach one data source's handlers: the three `off`
      first, then the three `on`. */
  function AttachCalls(h: Handlers): seq<Call> {
    [Detached(h.click), Detached(h.enter), Detached(h.leave), Attached(h.click), Attached(h.enter), Attached(h.leave)]
  }

  /** The attached listeners after a sequence of calls. */
  function ApplyCalls(ls: set<Listener>, calls: seq<Call>): set<Listener> {
    if calls == [] then ls
    else
      var n := |calls| - 1;
      var before := ApplyCalls(ls, calls[..n]);
      match calls[n]
      case Attached(l) => before + {l}
      case Detached(l) => before - {l}
      case _ => before
  }

  lemma {:induction false} ApplyCallsAppend(ls: set<Listener>, a: seq<Call>, b: seq<Call>)
    ensures ApplyCalls(ls, a + b) == ApplyCalls(ApplyCalls(ls, a), b)
  {
    if b == [] {
      assert a + b == a;
    } else {
      var n := |b| - 1;
      assert (a + b)[..|a| + n] == a + b[..n];
      ApplyCallsAppend(ls, a, b[..n]);
    }
  }

  /** Detaching before attaching leaves exactly the three handlers attached
      on top of what was there, with no duplicates. */
  lemma ApplyAttachCalls(ls: set<Listener>, h: Handlers)
    ensures ApplyCalls(ls, AttachCalls(h)) == ls + HandlerSet(h)
  {
    var c := AttachCalls(h);
    assert c[..1][..0] == [];
    assert c[..2][..1] == c[..1];
    assert c[..3][..2] == c[..2];
    assert c[..4][..3] == c[..3];
    assert c[..5][..4] == c[..4];
    assert c[..6][..5] == c[..5] && c[..6] == c;
    assert c[..1][0] == Detached(h.click) && c[..2][1] == Detached(h.enter) && c[..3][2] == Detached(h.leave);
    assert c[..4][3] == Attached(h.click) && c[..5][4] == Attached(h.enter) && c[5] == Attached(h.leave);
    assert ApplyCalls(ls, c[..1][..0]) == ls;
    var s1 := ApplyCalls(ls, c[..1]);
    assert s1 == ls - {h.click};
    var s2 := ApplyCalls(ls, c[..2]);
    assert s2 == s1 - {h.enter};
    var s3 := ApplyCalls(ls, c[..3]);
    assert s3 == s2 - {h.leave};
    var s4 := ApplyCalls(ls, c[..4]);
    assert s4 == s3 + {h.click};
    var s5 := ApplyCalls(ls, c[..5]);
    assert s5 == s4 + {h.enter};
    assert ApplyCalls(ls, c) == s5 + {h.leave};
  }

  // ---------------------------------------------------------------------------
  // The attach loop
  // ---------------------------------------------------------------------------

  /** One data source's turn in the `forEach`: new handlers, attached off
      first, when its fill layer exists and it has no registry entry. The
      result is the registry, the next unused token and the calls made. */
  function AttachStep(registry: map<string, Handlers>, next: nat, config: DataSourceConfig, layers: map<string, Layer>): (map<string, Handlers>, nat, seq<Call>) {
    if FillId(config.id) in layers && config.id !in registry then
      var h := NewHandlers(config, next);
      (registry[config.id := h], next + 3, AttachCalls(h))
    else (registry, next, [])
  }

  /** The `forEach` over the configured data sources, in order. */
  function AttachAll(registry: map<string, Handlers>, next: nat, configs: seq<DataSourceConfig>, layers: map<string, Layer>): (map<string, Handlers>, nat, seq<Call>) {
    if configs == [] then (registry, next, [])
    else
      var n := |configs| - 1;
      var r := AttachAll(registry, next, configs[..n], layers);
      var step := AttachStep(r.0, r.1, configs[n], layers);
      (step.0, step.1, r.2 + step.2)
  }

  function ConfigIds(configs: seq<DataSourceConfig>): set<string> {
    set i | 0 <= i < |configs| :: configs[i].id
  }

  /** The loop keeps every existing entry as it is, and adds an entry for
      exactly the configured ids whose fill layer exists and that had none. */
  lemma {:induction false} AttachAllEntries(registry: map<string, Handlers>, next: nat, configs: seq<DataSourceConfig>, layers: map<string, Layer>)
    ensures var r := AttachAll(registry, next, configs, layers);
      && r.0.Keys == registry.Keys + (set id | id in ConfigIds(configs) && FillId(id) in layers)
      && (forall id :: id in registry ==> r.0[id] == registry[id])
      && (forall id :: id in r.0 && id !in registry ==> r.0[id].fillLayerId == FillId(id))
      && r.1 >= next
  {
    if configs != [] {
      var n := |configs| - 1;
      AttachAllEntries(registry, next, configs[..n], layers);
      ConfigIdsSnoc(configs);
    }
  }

  lemma ConfigIdsSnoc(configs: seq<DataSourceConfig>)
    requires configs != []
    ensures ConfigIds(configs) == ConfigIds(configs[..|configs| - 1]) + {configs[|configs| - 1].id}
  {
    var n := |configs| - 1;
    assert forall i :: 0 <= i < n ==> configs[..n][i] == configs[i];
    forall id | id in ConfigIds(configs) ensures id in ConfigIds(configs[..n]) + {configs[n].id} {
      var i :| 0 <= i < |configs| && configs[i].id == id;
      if i < n {
        assert configs[..n][i].id == id;
      }
    }
  }

  /** A second run over the same layers attaches nothing: a data source is
      never registered twice. */
  lemma NoDoubleRegistration(registry: map<string, Handlers>, next: nat, configs: seq<DataSourceConfig>, layers: map<string, Layer>)
    ensures var r := AttachAll(registry, next, configs, layers);
      AttachAll(r.0, r.1, configs, layers) == (r.0, r.1, [])
  {
    var r := AttachAll(registry, next, configs, layers);
    AttachAllEntries(registry, next, configs, layers);
    AllRegisteredAttachNothing(r.0, r.1, configs, layers);
  }

  lemma {:induction false} AllRegisteredAttachNothing(registry: map<string, Handlers>, next: nat, configs: seq<DataSourceConfig>, layers: map<string, Layer>)
    requires forall i :: 0 <= i < |configs| && FillId(configs[i].id) in layers ==> configs[i].id in registry
    ensures AttachAll(registry, next, configs, layers) == (registry, next, [])
  {
    if configs != [] {
      AllRegisteredAttachNothing(registry, next, configs[..|configs| - 1], layers);
      var none: seq<Call> := [];
      assert none + none == none;
    }
  }

  /** Every `on` of the loop comes after an `off` of the same listener. */
  predicate OffBeforeOn(calls: seq<Call>) {
    forall k :: 0 <= k < |calls| && calls[k].Attached? ==>
      exists j :: 0 <= j < k && calls[j] == Detached(calls[k].listener)
  }

  lemma {:induction false} AttachAllOffBeforeOn(registry: map<string, Handlers>, next: nat, configs: seq<DataSourceConfig>, layers: map<string, Layer>)
    ensures OffBeforeOn(AttachAll(registry, next, configs, layers).2)
  {
    if configs != [] {
      var n := |configs| - 1;
      var r := AttachAll(registry, next, configs[..n], layers);
      AttachAllOffBeforeOn(registry, next, configs[..n], layers);
      var c := configs[n];
      if FillId(c.id) in layers && c.id !in r.0 {
        var h := NewHandlers(c, r.1);
        assert AttachAll(registry, next, configs, layers).2 == r.2 + AttachCalls(h);
        var calls := r.2 + AttachCalls(h);
        forall k | 0 <= k < |calls| && calls[k].Attached?
          ensures exists j :: 0 <= j < k && calls[j] == Detached(calls[k].listener)
        {
          if k < |r.2| {
            var j :| 0 <= j < k && r.2[j] == Detached(r.2[k].listener);
            assert calls[j] == r.2[j];
          } else {
            assert calls[k - 3] == Detached(calls[k].listener);
          }
        }
      } else {
        assert r.2 + [] == r.2;
      }
    }
  }

  /** The registry after the stale-entry loop: the entries whose fill layer
      still exists. */
  function Prune(registry: map<string, Handlers>, layers: map<string, Layer>): map<string, Handlers> {
    map id | id in registry && FillId(id) in layers :: registry[id]
  }

  /** After the effect the registry holds exactly the ids, old or
      configured, whose fill layer exists; none refers to a missing one. */
  lemma EffectKeys(registry: map<string, Handlers>, next: nat, configs: seq<DataSourceConfig>, layers: map<string, Layer>)
    ensures Prune(AttachAll(registry, next, configs, layers).0, layers).Keys
         == set id | id in registry.Keys + ConfigIds(configs) && FillId(id) in layers
  {
    AttachAllEntries(registry, next, configs, layers);
  }

  /** Each entry's cleanup detaches the handlers of its own fill layer. */
  ghost predicate WellKeyed(registry: map<string, Handlers>) {
    forall id :: id in registry ==> registry[id].fillLayerId == FillId(id)
  }

  /** The listeners a teardown detaches: those of the entries among `ids`
      whose fill layer exists. */
  ghost function Detachable(registry: map<string, Handlers>, ids: set<string>, layers: map<string, Layer>): set<Listener> {
    set id, l | id in ids && id in registry && FillId(id) in layers && l in HandlerSet(registry[id]) :: l
  }

  // ---------------------------------------------------------------------------
  // The hook
  // ---------------------------------------------------------------------------

  /** One entry's cleanup: detach the three handlers if the fill layer is
      still there. */
  method RunCleanup(m: MapStore, h: Handlers)
    modifies m
    ensures m.sources == old(m.sources) && m.layers == old(m.layers)
    ensures m.listeners == if h.fillLayerId in m.layers then old(m.listeners) - HandlerSet(h) else old(m.listeners)
    ensures m.calls == old(m.calls) + if h.fillLayerId in m.layers then [Detached(h.click), Detached(h.enter), Detached(h.leave)] else []
  {
    if h.fillLayerId in m.layers {
      m.Off(h.click);
      m.Off(h.enter);
      m.Off(h.leave);
    }
  }

  class ClickHandlers {
    var registry: map<string, Handlers>
    var nextHandler: nat

    ghost predicate Valid()
      reads this
    {
      WellKeyed(registry)
    }

    constructor ()
      ensures Valid() && registry == map[] && nextHandler == 0
    {
      registry := map[];
      nextHandler := 0;
    }

    /** One turn of the attach loop. */
    method AttachOne(m: MapStore, config: DataSourceConfig)
      requires Valid()
      modifies this, m
      ensures Valid()
      ensures m.sources == old(m.sources) && m.layers == old(m.layers)
      ensures var step := AttachStep(old(registry), old(nextHandler), config, m.layers);
        && registry == step.0 && nextHandler == step.1
        && m.calls == old(m.calls) + step.2 && m.listeners == ApplyCalls(old(m.listeners), step.2)
    {
      var fillId := FillId(config.id);
      if fillId in m.layers && config.id !in registry {
        var h := NewHandlers(config, nextHandler);
        m.Off(h.click);
        m.Off(h.enter);
        m.Off(h.leave);
        m.On(h.click);
        m.On(h.enter);
        m.On(h.leave);
        registry := registry[config.id := h];
        nextHandler := nextHandler + 3;
        ApplyAttachCalls(old(m.listeners), h);
      }
    }

    /** The attach loop over the configured data sources. */
    method AttachHandlers(m: MapStore, configs: seq<DataSourceConfig>)
      requires Valid()
      modifies this, m
      ensures Valid()
      ensures m.sources == old(m.sources) && m.layers == old(m.layers)
      ensures var r := AttachAll(old(registry), old(nextHandler), configs, m.layers);
        && registry == r.0 && nextHandler == r.1
        && m.calls == old(m.calls) + r.2 && m.listeners == ApplyCalls(old(m.listeners), r.2)
    {
      ghost var r0, n0, c0, l0 := registry, nextHandler, m.calls, m.listeners;
      var i := 0;
      while i < |configs|
        invariant 0 <= i <= |configs| && Valid()
        invariant m.sources == old(m.sources) && m.layers == old(m.layers)
        invariant var r := AttachAll(r0, n0, configs[..i], m.layers);
          registry == r.0 && nextHandler == r.1 && m.calls == c0 + r.2 && m.listeners == ApplyCalls(l0, r.2)
      {
        assert configs[..i + 1][..i] == configs[..i];
        ghost var before := AttachAll(r0, n0, configs[..i], m.layers).2;
        AttachOne(m, configs[i]);
        ghost var step := AttachStep(AttachAll(r0, n0, configs[..i], m.layers).0, AttachAll(r0, n0, configs[..i], m.layers).1, configs[i], m.layers);
        ApplyCallsAppend(l0, before, step.2);
        i := i + 1;
      }
      assert configs[..i] == configs;
    }

    /** The stale-entry loop: each entry whose fill layer is gone has its
      cleanup run (which finds no layer to detach from) and is deleted. */
    method PruneStale(m: MapStore)
      requires Valid()
      modifies this, m
      ensures Valid() && registry == Prune(old(registry), m.layers) && nextHandler == old(nextHandler)
      ensures m.sources == old(m.sources) && m.layers == old(m.layers)
      ensures m.calls == old(m.calls) && m.listeners == old(m.listeners)
    {
      ghost var r1 := registry;
      var stale := registry.Keys;
      while stale != {}
        invariant stale <= r1.Keys && nextHandler == old(nextHandler) && Valid()
        invariant registry == map id | id in r1 && (id in stale || FillId(id) in m.layers) :: r1[id]
        invariant m.sources == old(m.sources) && m.layers == old(m.layers)
        invariant m.calls == old(m.calls) && m.listeners == old(m.listeners)
        decreases stale
      {
        var id :| id in stale;
        if FillId(id) !in m.layers {
          RunCleanup(m, registry[id]);
          registry := registry - {id};
        }
        stale := stale - {id};
      }
      assert registry == Prune(r1, m.layers);
    }

    /** The effect body: nothing unless the data is loaded and a callback is
      given; then the attach loop, then the stale-entry loop. */
    method Effect(m: MapStore, dataLoaded: bool, hasCallback: bool, configs: seq<DataSourceConfig>)
      requires Valid()
      modifies this, m
      ensures Valid()
      ensures m.sources == old(m.sources) && m.layers == old(m.layers)
      ensures !dataLoaded || !hasCallback ==>
        registry == old(registry) && nextHandler == old(nextHandler) && m.listeners == old(m.listeners) && m.calls == old(m.calls)
      ensures dataLoaded && hasCallback ==>
        var r := AttachAll(old(registry), old(nextHandler), configs, m.layers);
        && registry == Prune(r.0, m.layers) && nextHandler == r.1
        && m.calls == old(m.calls) + r.2
        && m.listeners == ApplyCalls(old(m.listeners), r.2)
    {
      if !dataLoaded || !hasCallback {
        return;
      }
      AttachHandlers(m, configs);
      PruneStale(m);
    }

    /** The effect's returned cleanup: every entry's cleanup runs and the
      registry is emptied. */
    method Teardown(m: MapStore)
      requires Valid()
      modifies this, m
      ensures Valid() && registry == map[] && nextHandler == old(nextHandler)
      ensures m.sources == old(m.sources) && m.layers == old(m.layers)
      ensures m.listeners == old(m.listeners) - Detachable(old(registry), old(registry).Keys, m.layers)
      ensures |m.calls| >= |old(m.calls)| && m.calls[..|old(m.calls)|] == old(m.calls)
      ensures forall k :: |old(m.calls)| <= k < |m.calls| ==>
        m.calls[k].Detached? && m.calls[k].listener in Detachable(old(registry), old(registry).Keys, m.layers)
    {
      ghost var r0, c0, l0 := registry, m.calls, m.listeners;
      var pending := registry.Keys;
      while pending != {}
        invariant pending <= r0.Keys && registry == r0 && nextHandler == old(nextHandler)
        invariant m.sources == old(m.sources) && m.layers == old(m.layers)
        invariant m.listeners == l0 - Detachable(r0, r0.Keys - pending, m.layers)
        invariant |m.calls| >= |c0| && m.calls[..|c0|] == c0
        invariant forall k :: |c0| <= k < |m.calls| ==>
          m.calls[k].Detached? && m.calls[k].listener in Detachable(r0, r0.Keys - pending, m.layers)
        decreases pending
      {
        var id :| id in pending;
        ghost var done := r0.Keys - pending;
        ghost var callsBefore := m.calls;
        RunCleanup(m, registry[id]);
        assert Detachable(r0, done + {id}, m.layers)
            == Detachable(r0, done, m.layers) + (if FillId(id) in m.layers then HandlerSet(r0[id]) else {});
        assert r0.Keys - (pending - {id}) == done + {id};
        assert m.calls[..|callsBefore|] == callsBefore;
        pending := pending - {id};
      }
      registry := map[];
    }
  }
}
