/** Registration and eviction of plugins: pkg/api/plugins/v1alpha1/plugin_manager.go. */
module PluginManager {

  datatype Plugin = Plugin(name: string, endpoint: string)

  /** The registered plugins under their names, and how often each was found not ready in a row. */
  datatype Table = Table(plugins: map<string, Plugin>, retries: map<string, int>)

  function Retries(t: Table, name: string): int
  {
    if name in t.retries then t.retries[name] else 0
  }

  ghost predicate ProperlyNamed(plugins: map<string, Plugin>)
  {
    forall n :: n in plugins ==> plugins[n].name == n
  }

  function Inserted(t: Table, p: Plugin): Table
  {
    t.(plugins := t.plugins[p.name := p])
  }

  predicate Evicts(t: Table, ready: set<string>, limit: int, name: string)
  {
    name in t.plugins && name !in ready && Retries(t, name) >= limit
  }

  function Counted(t: Table, ready: set<string>, name: string): int
  {
    if name in ready then 0 else Retries(t, name) + 1
  }

  function Counts(t: Table, ready: set<string>): map<string, int>
  {
    map n | n in t.plugins.Keys + t.retries.Keys :: if n in t.plugins then Counted(t, ready, n) else t.retries[n]
  }

  function Refreshed(t: Table, ready: set<string>, limit: int): Table
  {
    Table(map n | n in t.plugins && !Evicts(t, ready, limit, n) :: t.plugins[n],
          map n | n in Counts(t, ready) && !Evicts(t, ready, limit, n) :: Counts(t, ready)[n])
  }

  lemma SameForOne(t: Table, u: Table, ready: set<string>, limit: int, name: string)
    requires Retries(t, name) == Retries(u, name) && t.plugins == u.plugins
    ensures Counted(t, ready, name) == Counted(u, ready, name)
      && Evicts(t, ready, limit, name) == Evicts(u, ready, limit, name)
  {
  }

  lemma AllCounted(t: Table, ready: set<string>, limit: int, retries: map<string, int>)
    requires retries.Keys == t.retries.Keys + t.plugins.Keys
    requires forall n :: n in retries ==> retries[n] == if n in t.plugins then Counted(t, ready, n) else t.retries[n]
    ensures retries == Counts(t, ready)
    ensures forall n :: Evicts(t, ready, limit, n) ==> n in t.plugins
  {
  }

  datatype Response = Response(pluginRegistered: bool, error: string)

  class PluginManagerServer {
    var registeredPlugins: map<string, Plugin>
    var registeredPluginsRetries: map<string, int>

    ghost function Current(): Table
      reads this
    {
      Table(registeredPlugins, registeredPluginsRetries)
    }

    constructor ()
      ensures Current() == Table(map[], map[])
    {
      registeredPlugins := map[];
      registeredPluginsRetries := map[];
    }

    /** The first locked section of Register. */
    method IsRegistered(name: string) returns (ok: bool)
      ensures ok <==> name in Current().plugins
    {
      ok := name in registeredPlugins;
    }

    /** The second locked section of Register: another caller may have come in between. */
    method Insert(p: Plugin)
      modifies this
      ensures Current() == Inserted(old(Current()), p)
      ensures registeredPlugins == old(registeredPlugins)[p.name := p]
      ensures registeredPluginsRetries == old(registeredPluginsRetries)
    {
      registeredPlugins := registeredPlugins[p.name := p];
    }

    /** Register without interference; `connects` says whether a client for the plugin could be made. */
    method Register(p: Plugin, supported: bool, connects: bool) returns (r: Response)
      modifies this
      ensures r.pluginRegistered <==> supported && connects && p.name !in old(Current()).plugins
      ensures Current() == if r.pluginRegistered then Inserted(old(Current()), p) else old(Current())
      ensures !r.pluginRegistered <==> r.error != ""
    {
      if !supported {
        return Response(false, "Unsupported plugin version.");
      }
      var ok := IsRegistered(p.name);
      if !ok {
        if !connects {
          return Response(false, "Actuator Client Stub Error.");
        }
        Insert(p);
        return Response(true, "");
      }
      return Response(false, "Plugin is already registered.");
    }

    /** What the periodic check does about one plugin. */
    method CountOne(pName: string, retries: int, ready: set<string>) returns (evict: bool)
      requires pName in registeredPlugins
      modifies `registeredPluginsRetries
      ensures registeredPluginsRetries == old(registeredPluginsRetries)[pName := Counted(old(Current()), ready, pName)]
      ensures evict <==> Evicts(old(Current()), ready, retries, pName)
    {
      evict := false;
      if pName !in ready {
        if pName !in registeredPluginsRetries {
          registeredPluginsRetries := registeredPluginsRetries[pName := 0];
        }
        if registeredPluginsRetries[pName] >= retries {
          evict := true;
        }
        registeredPluginsRetries := registeredPluginsRetries[pName := registeredPluginsRetries[pName] + 1];
      } else {
        registeredPluginsRetries := registeredPluginsRetries[pName := 0];
      }
    }

    /** The first loop of the periodic check: counts, and notes which plugins to drop. */
    method CountRetries(retries: int, ready: set<string>) returns (toBeDeleted: seq<string>)
      requires ProperlyNamed(registeredPlugins)
      modifies `registeredPluginsRetries
      ensures registeredPluginsRetries == Counts(old(Current()), ready)
      ensures forall n :: n in toBeDeleted <==> Evicts(old(Current()), ready, retries, n)
    {
      hide Counts, Evicts, Counted;
      ghost var before := Current();
      toBeDeleted := [];
      var todo := registeredPlugins.Keys;
      while todo != {}
        invariant todo <= registeredPlugins.Keys
        invariant registeredPluginsRetries.Keys == before.retries.Keys + (registeredPlugins.Keys - todo)
        invariant forall n :: n in registeredPluginsRetries ==>
                    registeredPluginsRetries[n] ==
                      if n in registeredPlugins && n !in todo then Counted(before, ready, n) else before.retries[n]
        invariant forall n :: n in toBeDeleted <==>
            n in registeredPlugins && n !in todo && Evicts(before, ready, retries, n)
      {
        var pName :| pName in todo;
        var a := registeredPlugins[pName];
        SameForOne(before, Current(), ready, retries, pName);
        todo := todo - {pName};
        var evict := CountOne(pName, retries, ready);
        if evict {
          toBeDeleted := toBeDeleted + [a.name];
        }
      }
      AllCounted(before, ready, retries, registeredPluginsRetries);
    }

    /** The periodic check; `ready` holds the names whose connections are ready. */
    method RefreshRegisteredPlugin(retries: int, ready: set<string>)
      requires ProperlyNamed(registeredPlugins)
      modifies this
      ensures Current() == Refreshed(old(Current()), ready, retries)
    {
      hide Evicts, Counts;
      ghost var before := Current();
      var toBeDeleted := CountRetries(retries, ready);
      ghost var counted := registeredPluginsRetries;
      var i := 0;
      while i < |toBeDeleted|
        invariant 0 <= i <= |toBeDeleted|
        invariant registeredPlugins == before.plugins - (set n | n in toBeDeleted[..i])
        invariant registeredPluginsRetries == counted - (set n | n in toBeDeleted[..i])
      {
        var k := toBeDeleted[i];
        registeredPlugins := registeredPlugins - {k};
        registeredPluginsRetries := registeredPluginsRetries - {k};
        i := i + 1;
      }
      assert toBeDeleted[..i] == toBeDeleted;
    }
  }

  /** What a refresh does to one name: who stays, with which client and which counter. */
  lemma RefreshedIs(t: Table, ready: set<string>, limit: int, name: string)
    ensures var after, count := Refreshed(t, ready, limit), if name in t.retries then t.retries[name] else 0;
            && (name in after.plugins <==> name in t.plugins && (name in ready || count < limit))
            && (name in after.plugins ==>
                  && after.plugins[name] == t.plugins[name] && name in after.retries
                  && after.retries[name] == if name in ready then 0 else count + 1)
            && (name in t.plugins && name !in after.plugins ==> name !in after.retries)
            && (name !in t.plugins ==>
                  (name in after.retries <==> name in t.retries)
                  && (name in after.retries ==> after.retries[name] == t.retries[name]))
  {
  }

  // ---------------------------------------------------------------- whole runs

  /** The atomic steps that registrations and refreshes interleave. */
  datatype Event = Check(name: string) | Insert(plugin: Plugin) | Refresh(ready: set<string>)

  function After(t: Table, e: Event, limit: int): Table
  {
    match e
    case Check(_) => t
    case Insert(p) => Inserted(t, p)
    case Refresh(ready) => Refreshed(t, ready, limit)
  }

  function Run(events: seq<Event>, limit: int): Table
  {
    if events == [] then Table(map[], map[]) else After(Run(events[..|events| - 1], limit), events[|events| - 1], limit)
  }

  /** In every run names are kept properly, and only registered plugins have a counter. */
  lemma {:induction false} RunKeepsOrder(events: seq<Event>, limit: int)
    ensures ProperlyNamed(Run(events, limit).plugins)
    ensures Run(events, limit).retries.Keys <= Run(events, limit).plugins.Keys
  {
    if events != [] {
      RunKeepsOrder(events[..|events| - 1], limit);
    }
  }

  predicate Registered(events: seq<Event>, limit: int, name: string)
  {
    name in Run(events, limit).plugins
  }

  /** Event i lets the name in, or finds it ready. */
  ghost predicate Resets(events: seq<Event>, limit: int, name: string, i: nat)
    requires i < |events|
  {
    && Registered(events[..i + 1], limit, name)
    && (!Registered(events[..i], limit, name) || (events[i].Refresh? && name in events[i].ready))
  }

  /** From event i on the name stays registered and is never found ready. */
  ghost predicate Waits(events: seq<Event>, limit: int, name: string, i: nat)
    requires i <= |events|
  {
    forall j :: i <= j <= |events| ==>
      && Registered(events[..j], limit, name)
      && (j < |events| && events[j].Refresh? ==> name !in events[j].ready)
  }

  function Refreshes(events: seq<Event>): nat
  {
    if events == [] then 0 else Refreshes(events[..|events| - 1]) + if events[|events| - 1].Refresh? then 1 else 0
  }

  /** The last event that let the name in or found it ready is the one before i. */
  ghost predicate WaitsSince(events: seq<Event>, limit: int, name: string, i: nat)
  {
    1 <= i <= |events| && Resets(events, limit, name, i - 1) && Waits(events, limit, name, i)
  }

  lemma WaitsSinceOnce(events: seq<Event>, limit: int, name: string, i: nat, j: nat)
    requires WaitsSince(events, limit, name, i) && WaitsSince(events, limit, name, j)
    ensures i == j
  {
    hide Run, Registered, Resets, Waits;
    NoResetSince(events, limit, name, i);
    NoResetSince(events, limit, name, j);
  }

  lemma NoResetSince(events: seq<Event>, limit: int, name: string, i: nat)
    requires i <= |events| && Waits(events, limit, name, i)
    ensures forall j :: i <= j < |events| ==> !Resets(events, limit, name, j)
  {
    hide Run, Registered;
  }

  /** The counter of a registered plugin counts the not-ready refreshes since it entered or was last ready. */
  lemma {:induction false} CounterCounts(events: seq<Event>, limit: int, name: string) returns (i: nat)
    requires Registered(events, limit, name)
    ensures WaitsSince(events, limit, name, i) && Retries(Run(events, limit), name) == Refreshes(events[i..])
    ensures Retries(Run(events, limit), name) <= if limit < 0 then 0 else limit
  {
    var n := |events| - 1;
    var before := events[..n];
    var e := events[n];
    assert events[..n + 1] == events;
    RunKeepsOrder(before, limit);
    if Resets(events, limit, name, n) {
      i := n + 1;
      assert events[i..] == [];
    } else {
      i := CounterCounts(before, limit, name);
      WaitsOn(events, limit, name, i);
    }
  }

  lemma StillWaits(events: seq<Event>, limit: int, name: string, i: nat)
    requires events != [] && i < |events| && Registered(events, limit, name)
      && !Resets(events, limit, name, |events| - 1)
    requires Waits(events[..|events| - 1], limit, name, i)
    ensures Waits(events, limit, name, i)
  {
    hide Run;
    var n := |events| - 1;
    var before := events[..n];
    assert events[..n + 1] == events && before[..n] == before;
    forall j | i <= j <= |events|
      ensures Registered(events[..j], limit, name) && (j < |events| && events[j].Refresh? ==> name !in events[j].ready)
    {
      if j < n {
        assert before[..j] == events[..j] && before[j] == events[j];
      }
    }
  }

  lemma StillReset(events: seq<Event>, before: seq<Event>, limit: int, name: string, i: nat)
    requires i < |before| && before <= events && Resets(before, limit, name, i)
    ensures Resets(events, limit, name, i)
  {
    hide Run;
    assert before[..i] == events[..i] && before[..i + 1] == events[..i + 1];
  }

  /** One more event that lets the name be. */
  lemma WaitsOn(events: seq<Event>, limit: int, name: string, i: nat)
    requires events != [] && Registered(events, limit, name) && !Resets(events, limit, name, |events| - 1)
    requires WaitsSince(events[..|events| - 1], limit, name, i)
    requires Retries(Run(events[..|events| - 1], limit), name) == Refreshes(events[..|events| - 1][i..])
    ensures WaitsSince(events, limit, name, i) && Retries(Run(events, limit), name) == Refreshes(events[i..])
  {
    hide Retries, Run, Registered, Resets, Waits, Refreshes;
    var n := |events| - 1;
    var before := events[..n];
    StillWaits(events, limit, name, i);
    StillReset(events, before, limit, name, i - 1);
    CounterOneMore(events, limit, name);
    RefreshesOneMore(before[i..], events[n]);
    assert events[i..] == before[i..] + [events[n]];
  }

  lemma CounterOneMore(events: seq<Event>, limit: int, name: string)
    requires events != [] && Registered(events, limit, name) && !Resets(events, limit, name, |events| - 1)
    ensures Retries(Run(events, limit), name) ==
              Retries(Run(events[..|events| - 1], limit), name) + if events[|events| - 1].Refresh? then 1 else 0
  {
    assert events[..|events|] == events;
  }

  lemma RefreshesOneMore(events: seq<Event>, e: Event)
    ensures Refreshes(events + [e]) == Refreshes(events) + if e.Refresh? then 1 else 0
  {
    assert (events + [e])[..|events|] == events;
  }

  /**
   * A refresh evicts a registered plugin exactly if it is not ready and this is its (limit + 1)-th refresh in a row
   * since the event before i, which let it in or last found it ready; a negative limit counts as 0.
   */
  lemma EvictedExactly(events: seq<Event>, limit: int, name: string, ready: set<string>, i: nat)
    requires WaitsSince(events, limit, name, i)
    ensures !Registered(events + [Refresh(ready)], limit, name) <==>
              name !in ready && Refreshes(events[i..] + [Refresh(ready)]) == (if limit < 0 then 0 else limit) + 1
  {
    assert events[..|events|] == events;
    var k := CounterCounts(events, limit, name);
    WaitsSinceOnce(events, limit, name, i, k);
    var all := events + [Refresh(ready)];
    assert all[..|all| - 1] == events;
    var since := events[i..] + [Refresh(ready)];
    assert since[..|since| - 1] == events[i..];
  }
}
