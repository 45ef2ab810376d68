/** `updateRibbonIcon` and `updateStatusBar`: each keeps one optional UI
    element present exactly when its setting is on. */
module Toggles {
  import opened Wrappers
  import opened PluginSettings

  /** An element the host created (`addRibbonIcon`, `addStatusBarItem`);
      `id` tells elements apart. */
  datatype Element = Element(id: nat)

  /** The settings and the two elements the plugin holds (`null` is `None`). */
  datatype PluginUi = PluginUi(settings: Settings, ribbonIcon: Option<Element>, statusBar: Option<Element>)

  /** The shared toggle: while enabled an existing element is kept and a
      missing one is replaced by `created`; while disabled the element is
      removed. */
  function Toggle(enabled: bool, current: Option<Element>, created: Element): (r: Option<Element>)
    ensures r.Some? <==> enabled
    ensures enabled && current.Some? ==> r == current
    ensures r.Some? && r != current ==> current.None? && r == Some(created)
  {
    if enabled then
      if current.None? then Some(created) else current
    else None
  }

  /** `updateRibbonIcon`; `created` is the icon `addRibbonIcon` would return. */
  function UpdateRibbonIcon(ui: PluginUi, created: Element): (r: PluginUi)
    ensures r.settings == ui.settings && r.statusBar == ui.statusBar
    ensures r.ribbonIcon.Some? <==> ui.settings.shortFormEnabled
    ensures ui.settings.shortFormEnabled && ui.ribbonIcon.Some? ==> r == ui
    ensures !ui.settings.shortFormEnabled && ui.ribbonIcon.None? ==> r == ui
  {
    ui.(ribbonIcon := Toggle(ui.settings.shortFormEnabled, ui.ribbonIcon, created))
  }

  /** `updateStatusBar`; `created` is the item `addStatusBarItem` would return. */
  function UpdateStatusBar(ui: PluginUi, created: Element): (r: PluginUi)
    ensures r.settings == ui.settings && r.ribbonIcon == ui.ribbonIcon
    ensures r.statusBar.Some? <==> ui.settings.statusBarEnabled
    ensures ui.settings.statusBarEnabled && ui.statusBar.Some? ==> r == ui
    ensures !ui.settings.statusBarEnabled && ui.statusBar.None? ==> r == ui
  {
    ui.(statusBar := Toggle(ui.settings.statusBarEnabled, ui.statusBar, created))
  }

  /** Updating twice is updating once: the second call creates nothing. */
  lemma RibbonIdempotent(ui: PluginUi, f1: Element, f2: Element)
    ensures UpdateRibbonIcon(UpdateRibbonIcon(ui, f1), f2) == UpdateRibbonIcon(ui, f1)
  {
  }

  lemma StatusBarIdempotent(ui: PluginUi, f1: Element, f2: Element)
    ensures UpdateStatusBar(UpdateStatusBar(ui, f1), f2) == UpdateStatusBar(ui, f1)
  {
  }

  /** The two toggles touch disjoint state, so their order does not matter. */
  lemma TogglesCommute(ui: PluginUi, f1: Element, f2: Element)
    ensures UpdateRibbonIcon(UpdateStatusBar(ui, f2), f1) == UpdateStatusBar(UpdateRibbonIcon(ui, f1), f2)
  {
  }

  /** The short-form setting switched to each of `flags` in turn, with
      `updateRibbonIcon` called after every switch; `created[i]` is the icon
      the host would create at step `i`. */
  function RibbonRun(ui: PluginUi, flags: seq<bool>, created: seq<Element>): PluginUi
    requires |created| == |flags|
    decreases |flags|
  {
    if |flags| == 0 then ui
    else
      var next := UpdateRibbonIcon(ui.(settings := ui.settings.(shortFormEnabled := flags[0])), created[0]);
      RibbonRun(next, flags[1..], created[1..])
  }

  /** Convergence: after any run the icon is present exactly when the last
      setting is on, and while the setting stays on an existing icon is
      never replaced. Nothing but the icon and that setting changes. */
  lemma {:induction false} RibbonRunConverges(ui: PluginUi, flags: seq<bool>, created: seq<Element>)
    requires |created| == |flags| > 0
    ensures RibbonRun(ui, flags, created).ribbonIcon.Some? <==> flags[|flags| - 1]
    ensures RibbonRun(ui, flags, created).settings == ui.settings.(shortFormEnabled := flags[|flags| - 1])
    ensures RibbonRun(ui, flags, created).statusBar == ui.statusBar
    ensures ui.ribbonIcon.Some? && (forall i :: 0 <= i < |flags| ==> flags[i]) ==>
      RibbonRun(ui, flags, created).ribbonIcon == ui.ribbonIcon
    decreases |flags|
  {
    var next := UpdateRibbonIcon(ui.(settings := ui.settings.(shortFormEnabled := flags[0])), created[0]);
    if |flags| > 1 {
      RibbonRunConverges(next, flags[1..], created[1..]);
      assert flags[1..][|flags| - 2] == flags[|flags| - 1];
      if ui.ribbonIcon.Some? && (forall i :: 0 <= i < |flags| ==> flags[i]) {
        assert forall i :: 0 <= i < |flags| - 1 ==> flags[1..][i] == flags[i + 1];
      }
    } else {
      assert RibbonRun(next, flags[1..], created[1..]) == next;
    }
  }
}
