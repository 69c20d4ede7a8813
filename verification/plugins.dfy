/**
 * remind/plugins.py: the plugin registry. Plugins are kept by name in
 * registration order (a Python dict), and the two notification hooks visit
 * every registered plugin, reporting and swallowing the exceptions they raise.
 * What a plugin's hook does is foreign code: the model only records whether
 * it raised.
 */
module Plugins {
  import opened Wrappers

  /**
   * A registered plugin object. `overridesDone` says whether its class
   * overrides `on_reminder_done`; the inherited hook does nothing.
   */
  datatype Plugin = Plugin(name: string, version: string, overridesDone: bool)

  /** `PluginManager.plugins`: the dict's values in insertion order. */
  type Registry = seq<Plugin>

  /** Dict keys are unique. */
  predicate UniqueNames(r: Registry) {
    forall i, j :: 0 <= i < j < |r| ==> r[i].name != r[j].name
  }

  /** `PluginManager()` starts with no plugins. */
  const EmptyRegistry: Registry := []

  /** Where the plugin named `name` sits, if it is registered. */
  function IndexOf(r: Registry, name: string): (k: Option<nat>)
    ensures k.Some? ==> k.value < |r| && r[k.value].name == name
    ensures k.None? <==> forall i :: 0 <= i < |r| ==> r[i].name != name
    ensures k.Some? ==> forall i :: 0 <= i < k.value ==> r[i].name != name
  {
    if |r| == 0 then None
    else if r[0].name == name then Some(0)
    else match IndexOf(r[1..], name)
      case None => None
      case Some(i) => Some(i + 1)
  }

  /** The first position holding a name is where it is found. */
  lemma IndexOfFirst(r: Registry, name: string, k: nat)
    requires k < |r| && r[k].name == name
    requires forall i :: 0 <= i < k ==> r[i].name != name
    ensures IndexOf(r, name) == Some(k)
  {
    var j := IndexOf(r, name);
    assert j.Some?;
    assert !(j.value < k);
    assert !(k < j.value);
  }

  /** `get_plugin(name)`: `dict.get`. */
  function GetPlugin(r: Registry, name: string): (p: Option<Plugin>)
    requires UniqueNames(r)
    ensures p.None? <==> forall i :: 0 <= i < |r| ==> r[i].name != name
    ensures p.Some? ==> p.value.name == name && exists i :: 0 <= i < |r| && r[i] == p.value
  {
    match IndexOf(r, name)
    case None => None
    case Some(i) => Some(r[i])
  }

  /**
   * `register_plugin(plugin)`: a new name goes to the end; a name already
   * registered keeps its position and the new object replaces the old one.
   */
  function Register(r: Registry, p: Plugin): (r': Registry)
    requires UniqueNames(r)
    ensures UniqueNames(r')
    ensures IndexOf(r, p.name).None? ==> r' == r + [p]
    ensures IndexOf(r, p.name).Some? ==> |r'| == |r| && r'[IndexOf(r, p.name).value] == p
    ensures IndexOf(r, p.name).Some? ==>
              forall i :: 0 <= i < |r| && i != IndexOf(r, p.name).value ==> r'[i] == r[i]
  {
    match IndexOf(r, p.name)
    case None => r + [p]
    case Some(i) => r[i := p]
  }

  /** After registration the name looks up the new plugin. */
  lemma RegisterThenGet(r: Registry, p: Plugin)
    requires UniqueNames(r)
    ensures GetPlugin(Register(r, p), p.name) == Some(p)
  {
    var r' := Register(r, p);
    match IndexOf(r, p.name)
    case None =>
      IndexOfFirst(r', p.name, |r|);
    case Some(i) =>
      IndexOfFirst(r', p.name, i);
  }

  /** Registration leaves every other name's lookup alone. */
  lemma RegisterKeepsOthers(r: Registry, p: Plugin, name: string)
    requires UniqueNames(r)
    requires name != p.name
    ensures GetPlugin(Register(r, p), name) == GetPlugin(r, name)
  {
    var r' := Register(r, p);
    match IndexOf(r, name)
    case None =>
      assert forall i :: 0 <= i < |r'| ==> r'[i].name != name;
    case Some(k) =>
      IndexOfFirst(r', name, k);
  }

  /** What a hook call left behind: a raised exception is printed as an error line. */
  datatype Report = Report(plugin: string, raised: bool)

  /**
   * `notify_reminder_due(text, id)`: every plugin's `on_reminder_due` runs
   * once, in registration order; `raising` names the plugins whose hook
   * raises on this call, and the loop carries on past them: every plugin
   * after one that raised still gets its call.
   */
  method NotifyDue(r: Registry, text: string, id: int, raising: set<string>) returns (log: seq<Report>)
    ensures |log| == |r|
    ensures forall i :: 0 <= i < |r| ==> log[i].plugin == r[i].name
    ensures forall i :: 0 <= i < |r| ==> (log[i].raised <==> r[i].name in raising)
    ensures forall i, j :: 0 <= i < j < |r| && log[i].raised ==> log[j].plugin == r[j].name
  {
    log := [];
    var k := 0;
    while k < |r|
      invariant 0 <= k <= |r|
      invariant |log| == k
      invariant forall i :: 0 <= i < k ==> log[i] == Report(r[i].name, r[i].name in raising)
    {
      log := log + [Report(r[k].name, r[k].name in raising)];
      k := k + 1;
    }
  }

  /**
   * `notify_reminder_done(id)`: as above, but a plugin that keeps the
   * inherited hook runs the base class's no-op, which cannot raise.
   */
  method NotifyDone(r: Registry, id: int, raising: set<string>) returns (log: seq<Report>)
    ensures |log| == |r|
    ensures forall i :: 0 <= i < |r| ==> log[i].plugin == r[i].name
    ensures forall i :: 0 <= i < |r| ==> (log[i].raised <==> r[i].overridesDone && r[i].name in raising)
    ensures forall i, j :: 0 <= i < j < |r| && log[i].raised ==> log[j].plugin == r[j].name
  {
    log := [];
    var k := 0;
    while k < |r|
      invariant 0 <= k <= |r|
      invariant |log| == k
      invariant forall i :: 0 <= i < k ==> log[i] == Report(r[i].name, r[i].overridesDone && r[i].name in raising)
    {
      var raised := r[k].overridesDone && r[k].name in raising;
      log := log + [Report(r[k].name, raised)];
      k := k + 1;
    }
  }
}
