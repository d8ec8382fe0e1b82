/** The focus and overlay state machine of the dashboard.

    The terminal surface is abstracted to what the state machine reads and
    writes: the set of live views, the current view, the text the navigation
    bar shows (the name of the focused panel) and the key bindings. A call
    the program makes with a view that does not exist panics; those calls
    are preconditions here. */
module Gui {

  import opened Wrappers
  import opened Names
  import opened Keys
  import Geometry
  import GoInt

  /** A registered panel: its name and the rectangle it was created with. */
  datatype Panel = Panel(name: Name, rect: Geometry.Rect)

  /** The dashboard state.
      - panels: the registry, by name;
      - panelNames: the focus cycle;
      - active: the index of the focused panel in the cycle;
      - nextPanel: the panel that regains focus when an overlay closes;
      - current, navi: the current view and the name the navigation bar shows
        (None before the first switch);
      - views, bindings: the live views and key bindings of the surface. */
  datatype State = State(
    panels: map<Name, Panel>,
    panelNames: seq<Name>,
    active: int,
    nextPanel: Name,
    current: Option<Name>,
    navi: Option<Name>,
    views: set<Name>,
    bindings: seq<Binding>)

  /** The well-formed states: the navigation bar is registered, the cycle is
      non-empty, `active` indexes it and every panel in it has a view. */
  predicate Valid(g: State)
  {
    && NavigatePanel in g.panels
    && 0 <= g.active < |g.panelNames|
    && forall i :: 0 <= i < |g.panelNames| ==> g.panelNames[i] in g.views
  }

  /** The actions key `k` runs while view `v` has focus, in binding order. */
  function Handlers(g: State, v: Name, k: Key): seq<Action>
  {
    Dispatch(g.bindings, v, k)
  }

  /** SetKeybinding: append binding `b`; nothing else changes. */
  function Bind(g: State, b: Binding): (r: State)
    ensures r.bindings == g.bindings + [b]
    ensures r.(bindings := g.bindings) == g
  {
    g.(bindings := g.bindings + [b])
  }

  /** After Bind, every key `b` answers also runs its action, after those
      bound before; every other key is unaffected. */
  lemma {:induction false} BindHandlers(g: State, b: Binding, v: Name, k: Key)
    ensures Handlers(Bind(g, b), v, k) == Handlers(g, v, k) + (if Fires(b, v, k) then [b.action] else [])
  {
    DispatchSnoc(g.bindings, b, v, k);
  }

  /** The record New builds before init runs: nothing registered, the
      overlay return target on the image list, index 0. */
  function Fresh(): State
  {
    State(map[], [], 0, ImageListPanel, None, None, {}, [])
  }

  /** AddPanelNames: append a panel to the focus cycle. */
  function AddPanelNames(g: State, p: Panel): (r: State)
    ensures |r.panelNames| == |g.panelNames| + 1
    ensures r.panelNames[..|g.panelNames|] == g.panelNames
    ensures r.panelNames[|g.panelNames|] == p.name
    ensures r.(panelNames := g.panelNames) == g
  {
    g.(panelNames := g.panelNames + [p.name])
  }

  /** StorePanels: register a panel by name, replacing any panel of that
      name, and append it to the cycle when it is one of the four cyclable
      panels, whether or not it is already there. */
  function StorePanels(g: State, p: Panel): (r: State)
    ensures r.panels == g.panels[p.name := p]
    ensures p.name in Cyclable ==> r.panelNames == g.panelNames + [p.name]
    ensures p.name !in Cyclable ==> r.panelNames == g.panelNames
    ensures r.(panels := g.panels, panelNames := g.panelNames) == g
  {
    var g1 := g.(panels := g.panels[p.name := p]);
    if p.name in Cyclable then AddPanelNames(g1, p) else g1
  }

  /** The names of the five panels init registers. */
  const InitNames: set<Name> := {ImageListPanel, ContainerListPanel, VolumeListPanel, DetailPanel, NavigatePanel}

  /** The five panels init creates, in registration order, laid out on a
      terminal of maxX columns and maxY rows. */
  function InitPanels(maxX: int, maxY: int): (ps: seq<Panel>)
    ensures |ps| == 5
    ensures ps[0].name == ImageListPanel && ps[1].name == ContainerListPanel
    ensures ps[2].name == VolumeListPanel && ps[3].name == DetailPanel && ps[4].name == NavigatePanel
    // the three lists stack in the left column without a gap
    ensures ps[0].rect.y1 + 1 == ps[1].rect.y0 && ps[1].rect.y1 + 1 == ps[2].rect.y0
    ensures ps[0].rect.x1 == ps[1].rect.x1 == ps[2].rect.x1 && ps[3].rect.x0 == ps[0].rect.x1 + 2
    // the volume list and the detail panel end on the navigation bar's top row
    ensures ps[2].rect.y1 == ps[3].rect.y1 == ps[4].rect.y0
    // where the layout sits on a terminal of maxX columns and maxY rows
    ensures ps[0].rect.x0 == ps[1].rect.x0 == ps[2].rect.x0 == ps[4].rect.x0 == 0
    ensures ps[0].rect.y0 == ps[3].rect.y0 == 0
    ensures 0 <= maxX ==> 2 * (ps[0].rect.x1 + 1) <= maxX < 2 * (ps[0].rect.x1 + 1) + 2
    ensures maxX < 0 ==> 2 * (ps[0].rect.x1 + 1) - 2 < maxX <= 2 * (ps[0].rect.x1 + 1)
    ensures 0 <= maxY ==> 3 * ps[1].rect.y0 <= maxY < 3 * ps[1].rect.y0 + 3
    ensures maxY < 0 ==> 3 * ps[1].rect.y0 - 3 < maxY <= 3 * ps[1].rect.y0
    ensures ps[2].rect.y0 == 2 * ps[1].rect.y0
    ensures ps[3].rect.x1 == ps[4].rect.x1 == maxX - 1 && ps[4].rect.y0 == maxY - 3 && ps[4].rect.y1 == maxY
  {
    [ Panel(ImageListPanel, Geometry.ImageListRect(maxX, maxY)),
      Panel(ContainerListPanel, Geometry.ContainerListRect(maxX, maxY)),
      Panel(VolumeListPanel, Geometry.VolumeListRect(maxX, maxY)),
      Panel(DetailPanel, Geometry.DetailRect(maxX, maxY)),
      Panel(NavigatePanel, Geometry.NavigateRect(maxX, maxY)) ]
  }

  /** SwitchPanel: make `next` the current view and show its name in the
      navigation bar. The focus index is not touched. */
  function SwitchPanel(g: State, next: Name): (r: State)
    requires next in g.views && NavigatePanel in g.panels
    ensures r.current == Some(next) && r.navi == Some(next)
    ensures r.active == g.active
    ensures r.(current := g.current, navi := g.navi) == g
  {
    g.(current := Some(next), navi := Some(next))
  }

  /** What SetKeyBindingToPanel binds key `k` to on its panel. */
  function PanelAction(k: Key): seq<Action>
  {
    if k == Ch('q') then [QuitAction]
    else if k == Ch('h') then [PrePanelAction]
    else if k == Ch('l') || k == KeyTab then [NextPanelAction]
    else []
  }

  /** SetKeyBindingToPanel: on view `p`, 'q' quits, 'h' cycles back, and
      'l' and Tab cycle forward; each runs after whatever those keys already
      ran there, and no other key or view changes. */
  function SetKeyBindingToPanel(g: State, p: Name): (r: State)
    ensures |r.bindings| == |g.bindings| + 4 && r.bindings[..|g.bindings|] == g.bindings
    ensures forall i :: |g.bindings| <= i < |r.bindings| ==> r.bindings[i].scope == OnView(p)
    ensures forall v, k :: Handlers(r, v, k) == Handlers(g, v, k) + (if v == p then PanelAction(k) else [])
    ensures r.(bindings := g.bindings) == g
  {
    var quit := Binding(OnView(p), Ch('q'), QuitAction);
    var pre := Binding(OnView(p), Ch('h'), PrePanelAction);
    var next := Binding(OnView(p), Ch('l'), NextPanelAction);
    var tab := Binding(OnView(p), KeyTab, NextPanelAction);
    var g1 := Bind(g, quit);
    var g2 := Bind(g1, pre);
    var g3 := Bind(g2, next);
    var r := Bind(g3, tab);
    assert r.bindings == g.bindings + [quit, pre, next, tab];
    assert forall v, k :: Handlers(r, v, k) == Handlers(g, v, k) + (if v == p then PanelAction(k) else []) by {
      forall v, k
        ensures Handlers(r, v, k) == Handlers(g, v, k) + (if v == p then PanelAction(k) else [])
      {
        BindHandlers(g, quit, v, k);
        BindHandlers(g1, pre, v, k);
        BindHandlers(g2, next, v, k);
        BindHandlers(g3, tab, v, k);
      }
    }
    r
  }

  /** SetGlobalKeyBinding: Ctrl-Q quits from every view, after whatever it
      already ran there; no other key changes. */
  function SetGlobalKeyBinding(g: State): (r: State)
    ensures r.bindings == g.bindings + [Binding(Global, KeyCtrlQ, QuitAction)]
    ensures forall v, k :: Handlers(r, v, k) == Handlers(g, v, k) + (if k == KeyCtrlQ then [QuitAction] else [])
    ensures r.(bindings := g.bindings) == g
  {
    var b := Binding(Global, KeyCtrlQ, QuitAction);
    var r := Bind(g, b);
    assert forall v, k :: Handlers(r, v, k) == Handlers(g, v, k) + (if k == KeyCtrlQ then [QuitAction] else []) by {
      forall v, k
        ensures Handlers(r, v, k) == Handlers(g, v, k) + (if k == KeyCtrlQ then [QuitAction] else [])
      {
        BindHandlers(g, b, v, k);
      }
    }
    r
  }

  /** The registry after storing the five panels of init, one after another. */
  function StoreFive(m: map<Name, Panel>, ps: seq<Panel>): map<Name, Panel>
    requires |ps| == 5
  {
    m[ps[0].name := ps[0]][ps[1].name := ps[1]][ps[2].name := ps[2]][ps[3].name := ps[3]][ps[4].name := ps[4]]
  }

  /** Storing five panels of the init names, in init's order, leaves each
      name with its panel and every other entry as it was. */
  lemma StoreFiveEntries(m: map<Name, Panel>, ps: seq<Panel>)
    requires |ps| == 5
    requires ps[0].name == ImageListPanel && ps[1].name == ContainerListPanel
    requires ps[2].name == VolumeListPanel && ps[3].name == DetailPanel && ps[4].name == NavigatePanel
    ensures forall i :: 0 <= i < 5 ==> ps[i].name in StoreFive(m, ps) && StoreFive(m, ps)[ps[i].name] == ps[i]
    ensures StoreFive(m, ps).Keys == m.Keys + InitNames
    ensures forall n :: n in m && n !in InitNames ==> StoreFive(m, ps)[n] == m[n]
  {
  }

  /** The five StorePanels calls of init: the four cyclable panels join the
      cycle in order, the registry gets all five, and nothing else changes. */
  function StoreInitPanels(g: State, ps: seq<Panel>): (r: State)
    requires |ps| == 5
    requires ps[0].name == ImageListPanel && ps[1].name == ContainerListPanel
    requires ps[2].name == VolumeListPanel && ps[3].name == DetailPanel && ps[4].name == NavigatePanel
    ensures r.panelNames == g.panelNames + [ImageListPanel, ContainerListPanel, VolumeListPanel, DetailPanel]
    ensures r.panels == StoreFive(g.panels, ps)
    ensures r.(panels := g.panels, panelNames := g.panelNames) == g
  {
    var g1 := StorePanels(g, ps[0]);
    assert g1.panelNames == g.panelNames + [ImageListPanel];
    var g2 := StorePanels(g1, ps[1]);
    assert g2.panelNames == g.panelNames + [ImageListPanel, ContainerListPanel];
    var g3 := StorePanels(g2, ps[2]);
    assert g3.panelNames == g.panelNames + [ImageListPanel, ContainerListPanel, VolumeListPanel];
    var g4 := StorePanels(g3, ps[3]);
    StorePanels(g4, ps[4])
  }

  /** The part of init before the key bindings: register the five panels in
      their fixed order, create their views and focus the image list. */
  function RegisterPanels(g: State, maxX: int, maxY: int): (r: State)
    ensures r.panelNames == g.panelNames + [ImageListPanel, ContainerListPanel, VolumeListPanel, DetailPanel]
    ensures r.panels.Keys == g.panels.Keys + {ImageListPanel, ContainerListPanel, VolumeListPanel, DetailPanel, NavigatePanel}
    ensures r.views == g.views + r.panels.Keys
    // each of the five names holds the panel init lays out for it
    ensures forall i :: 0 <= i < 5 ==>
      InitPanels(maxX, maxY)[i].name in r.panels && r.panels[InitPanels(maxX, maxY)[i].name] == InitPanels(maxX, maxY)[i]
    // every other registered panel is kept as it was
    ensures forall n :: n in g.panels && n !in InitNames ==> r.panels[n] == g.panels[n]
    ensures r.current == Some(ImageListPanel) && r.navi == Some(ImageListPanel)
    ensures r.active == g.active && r.nextPanel == g.nextPanel && r.bindings == g.bindings
  {
    var ps := InitPanels(maxX, maxY);
    var g5 := StoreInitPanels(g, ps);
    StoreFiveEntries(g.panels, ps);
    // each registered panel's SetView creates the view of its name
    var g6 := g5.(views := g5.views + g5.panels.Keys);
    SwitchPanel(g6, ImageListPanel)
  }

  /** init: register the five panels in their fixed order, create their
      views, focus the image list and bind the global keys. */
  function Init(g: State, maxX: int, maxY: int): (r: State)
    ensures r.panelNames == g.panelNames + [ImageListPanel, ContainerListPanel, VolumeListPanel, DetailPanel]
    ensures r.panels.Keys == g.panels.Keys + {ImageListPanel, ContainerListPanel, VolumeListPanel, DetailPanel, NavigatePanel}
    ensures r.views == g.views + r.panels.Keys
    // each of the five names holds the panel init lays out for it
    ensures forall i :: 0 <= i < 5 ==>
      InitPanels(maxX, maxY)[i].name in r.panels && r.panels[InitPanels(maxX, maxY)[i].name] == InitPanels(maxX, maxY)[i]
    // every other registered panel is kept as it was
    ensures forall n :: n in g.panels && n !in InitNames ==> r.panels[n] == g.panels[n]
    ensures r.current == Some(ImageListPanel) && r.navi == Some(ImageListPanel)
    ensures r.active == g.active && r.nextPanel == g.nextPanel
    ensures r.bindings == g.bindings + [Binding(Global, KeyCtrlQ, QuitAction)]
    ensures forall v, k :: Handlers(r, v, k) == Handlers(g, v, k) + (if k == KeyCtrlQ then [QuitAction] else [])
  {
    SetGlobalKeyBinding(RegisterPanels(g, maxX, maxY))
  }

  /** New followed by init: the state the dashboard starts in. */
  function New(maxX: int, maxY: int): (r: State)
    ensures Valid(r)
    ensures r.panelNames == [ImageListPanel, ContainerListPanel, VolumeListPanel, DetailPanel]
    ensures r.active == 0 && r.current == r.navi == Some(r.nextPanel) == Some(r.panelNames[r.active])
    ensures NavigatePanel !in r.panelNames
    ensures forall o :: o in Overlays ==> o !in r.panelNames && o !in r.views
    ensures r.bindings == [Binding(Global, KeyCtrlQ, QuitAction)]
  {
    InitFromFresh(maxX, maxY);
    StartupShape(Init(Fresh(), maxX, maxY));
    Init(Fresh(), maxX, maxY)
  }

  /** init from the fresh record: the cycle holds the four content panels
      in registration order and the image list has focus. */
  lemma {:induction false} InitFromFresh(maxX: int, maxY: int)
    ensures var r := Init(Fresh(), maxX, maxY);
      && r.panelNames == [ImageListPanel, ContainerListPanel, VolumeListPanel, DetailPanel]
      && r.views == Cyclable + {NavigatePanel}
      && NavigatePanel in r.panels
      && r.active == 0 && r.current == r.navi == Some(ImageListPanel) && r.nextPanel == ImageListPanel
      && r.bindings == [Binding(Global, KeyCtrlQ, QuitAction)]
  {
    var r := Init(Fresh(), maxX, maxY);
    StartFromEmpty(Fresh(), r);
  }

  /** The first steps of init on a record with no panels, views or bindings
      leave exactly the startup cycle, views and Ctrl-Q binding. */
  lemma StartFromEmpty(f: State, r: State)
    requires f.panelNames == [] && f.panels.Keys == {} && f.views == {} && f.bindings == []
    requires r.panelNames == f.panelNames + [ImageListPanel, ContainerListPanel, VolumeListPanel, DetailPanel]
    requires r.panels.Keys == f.panels.Keys + InitNames
    requires r.views == f.views + r.panels.Keys
    requires r.bindings == f.bindings + [Binding(Global, KeyCtrlQ, QuitAction)]
    ensures r.panelNames == [ImageListPanel, ContainerListPanel, VolumeListPanel, DetailPanel]
    ensures r.views == Cyclable + {NavigatePanel} && NavigatePanel in r.panels
    ensures r.bindings == [Binding(Global, KeyCtrlQ, QuitAction)]
  {
  }

  /** A state with the startup cycle and views is well formed, and neither
      the navigation bar nor an overlay is in its cycle or on its surface. */
  lemma {:induction false} StartupShape(r: State)
    requires r.panelNames == [ImageListPanel, ContainerListPanel, VolumeListPanel, DetailPanel]
    requires r.views == Cyclable + {NavigatePanel} && NavigatePanel in r.panels && r.active == 0
    ensures Valid(r)
    ensures NavigatePanel !in r.panelNames
    ensures forall o :: o in Overlays ==> o !in r.panelNames && o !in r.views
  {
  }

  /** The index nextPanel moves to: active + 1 with Go's remainder. */
  function NextIndex(g: State): int
    requires |g.panelNames| > 0
  {
    GoInt.GoRem(g.active + 1, |g.panelNames|)
  }

  /** nextPanel does not panic: the next index and its view exist. */
  predicate CanNext(g: State)
  {
    && |g.panelNames| > 0
    && 0 <= NextIndex(g)
    && g.panelNames[NextIndex(g)] in g.views
    && NavigatePanel in g.panels
  }

  /** nextPanel: focus the following panel of the cycle, wrapping to the first. */
  function NextPanel(g: State): (r: State)
    requires CanNext(g)
    ensures 0 <= r.active < |r.panelNames|
    ensures 0 <= g.active ==> r.active == (g.active + 1) % |g.panelNames|
    ensures r.current == r.navi == Some(r.panelNames[r.active])
    ensures r.(active := g.active, current := g.current, navi := g.navi) == g
    ensures Valid(g) ==> Valid(r)
  {
    var i := NextIndex(g);
    SwitchPanel(g, g.panelNames[i]).(active := i)
  }

  /** The index prePanel moves to: the last one from index 0 (or below),
      active - 1 with Go's remainder otherwise. */
  function PrevIndex(g: State): (i: int)
    requires |g.panelNames| > 0
    ensures 0 <= i < |g.panelNames|
  {
    if g.active - 1 < 0 then |g.panelNames| - 1
    else GoInt.GoRem(g.active - 1, |g.panelNames|)
  }

  /** prePanel does not panic: the cycle is non-empty and the view exists. */
  predicate CanPre(g: State)
  {
    && |g.panelNames| > 0
    && g.panelNames[PrevIndex(g)] in g.views
    && NavigatePanel in g.panels
  }

  /** prePanel: focus the preceding panel of the cycle, wrapping to the last. */
  function PrePanel(g: State): (r: State)
    requires CanPre(g)
    ensures 0 <= r.active < |r.panelNames|
    ensures g.active <= 0 ==> r.active == |g.panelNames| - 1
    ensures 0 < g.active <= |g.panelNames| ==> r.active == g.active - 1
    ensures r.current == r.navi == Some(r.panelNames[r.active])
    ensures r.(active := g.active, current := g.current, navi := g.navi) == g
    ensures Valid(g) ==> Valid(r)
  {
    var i := PrevIndex(g);
    assert 0 < g.active <= |g.panelNames| ==> i == g.active - 1 by {
      if 0 < g.active <= |g.panelNames| {
        GoInt.RemPred(g.active, |g.panelNames|);
      }
    }
    SwitchPanel(g, g.panelNames[i]).(active := i)
  }

  /** RefreshAllPanel: refresh every panel (no effect on focus), then focus
      the overlay return target. */
  function RefreshAllPanel(g: State): (r: State)
    requires g.nextPanel in g.views && NavigatePanel in g.panels
    ensures r.current == r.navi == Some(g.nextPanel)
    ensures r.(current := g.current, navi := g.navi) == g
  {
    SwitchPanel(g, g.nextPanel)
  }

  /** ErrMessage: record the panel to return to, open the error overlay
      (focusing it only when it is newly created) and bind Enter on it to
      CloseMessage. */
  function ErrMessage(g: State, next: Name): (r: State)
    requires ErrMessagePanel !in g.views ==> NavigatePanel in g.panels
    ensures r.nextPanel == next
    ensures r.views == g.views + {ErrMessagePanel}
    ensures r.bindings == g.bindings + [Binding(OnView(ErrMessagePanel), KeyEnter, CloseMessageAction)]
    ensures forall v, k ::
      Handlers(r, v, k) == Handlers(g, v, k) + (if v == ErrMessagePanel && k == KeyEnter then [CloseMessageAction] else [])
    ensures ErrMessagePanel !in g.views ==> r.current == r.navi == Some(ErrMessagePanel)
    ensures ErrMessagePanel in g.views ==> r.current == g.current && r.navi == g.navi
    ensures r.active == g.active && r.panels == g.panels && r.panelNames == g.panelNames
  {
    var g1 := g.(nextPanel := next);
    var g2 :=
      if ErrMessagePanel !in g1.views
      then SwitchPanel(g1.(views := g1.views + {ErrMessagePanel}), ErrMessagePanel)
      else g1;
    var enter := Binding(OnView(ErrMessagePanel), KeyEnter, CloseMessageAction);
    var r := Bind(g2, enter);
    assert forall v, k ::
      Handlers(r, v, k) == Handlers(g, v, k) + (if v == ErrMessagePanel && k == KeyEnter then [CloseMessageAction] else []) by {
      forall v, k
        ensures Handlers(r, v, k) == Handlers(g, v, k) + (if v == ErrMessagePanel && k == KeyEnter then [CloseMessageAction] else [])
      {
        BindHandlers(g2, enter, v, k);
      }
    }
    r
  }

  /** CloseMessage does not panic: view `v` exists, and so does the return
      target once `v` is gone. */
  predicate CanCloseMessage(g: State, v: Name)
  {
    v in g.views && g.nextPanel in g.views - {v} && NavigatePanel in g.panels
  }

  /** CloseMessage, run from view `v`: delete the view and its bindings, then
      refresh everything, which focuses the return target. */
  function CloseMessage(g: State, v: Name): (r: State)
    requires CanCloseMessage(g, v)
    ensures r.views == g.views - {v}
    ensures forall b :: b in r.bindings <==> b in g.bindings && b.scope != OnView(v)
    ensures forall b :: multiset(r.bindings)[b] == if b.scope == OnView(v) then 0 else multiset(g.bindings)[b]
    ensures r.bindings == DeleteKeybindings(g.bindings, v)
    ensures r.current == r.navi == Some(g.nextPanel)
    ensures r.active == g.active && r.nextPanel == g.nextPanel
    ensures r.panels == g.panels && r.panelNames == g.panelNames
  {
    var g1 := g.(views := g.views - {v}, bindings := DeleteKeybindings(g.bindings, v));
    assert forall b :: multiset(g1.bindings)[b] == if b.scope == OnView(v) then 0 else multiset(g.bindings)[b] by {
      forall b ensures multiset(g1.bindings)[b] == if b.scope == OnView(v) then 0 else multiset(g.bindings)[b] {
        DeleteCounts(g.bindings, v, b);
      }
    }
    RefreshAllPanel(g1)
  }

  /** What ConfirmMessage binds key `k` to on its overlay, for the caller's
      action `tag`. */
  function ConfirmAction(tag: nat, k: Key): seq<Action>
  {
    if k == Ch('y') || k == KeyEnter then [CallerAction(tag)]
    else if k == Ch('n') then [CloseConfirmAction]
    else []
  }

  /** ConfirmMessage: open the confirmation overlay (focusing it only when it
      is newly created); 'y' and Enter run the caller's action, 'n' cancels,
      each after whatever those keys already ran there. The return target is
      left as it is. */
  function ConfirmMessage(g: State, tag: nat): (r: State)
    requires ConfirmMessagePanel !in g.views ==> NavigatePanel in g.panels
    ensures r.views == g.views + {ConfirmMessagePanel}
    ensures |r.bindings| == |g.bindings| + 3 && r.bindings[..|g.bindings|] == g.bindings
    ensures forall i :: |g.bindings| <= i < |r.bindings| ==> r.bindings[i].scope == OnView(ConfirmMessagePanel)
    ensures forall v, k ::
      Handlers(r, v, k) == Handlers(g, v, k) + (if v == ConfirmMessagePanel then ConfirmAction(tag, k) else [])
    ensures ConfirmMessagePanel !in g.views ==> r.current == r.navi == Some(ConfirmMessagePanel)
    ensures ConfirmMessagePanel in g.views ==> r.current == g.current && r.navi == g.navi
    ensures r.nextPanel == g.nextPanel && r.active == g.active
    ensures r.panels == g.panels && r.panelNames == g.panelNames
  {
    var g1 :=
      if ConfirmMessagePanel !in g.views
      then SwitchPanel(g.(views := g.views + {ConfirmMessagePanel}), ConfirmMessagePanel)
      else g;
    var yes := Binding(OnView(ConfirmMessagePanel), Ch('y'), CallerAction(tag));
    var enter := Binding(OnView(ConfirmMessagePanel), KeyEnter, CallerAction(tag));
    var no := Binding(OnView(ConfirmMessagePanel), Ch('n'), CloseConfirmAction);
    var g2 := Bind(g1, yes);
    var g3 := Bind(g2, enter);
    var r := Bind(g3, no);
    assert r.bindings == g.bindings + [yes, enter, no];
    assert forall v, k ::
      Handlers(r, v, k) == Handlers(g, v, k) + (if v == ConfirmMessagePanel then ConfirmAction(tag, k) else []) by {
      forall v, k
        ensures Handlers(r, v, k) == Handlers(g, v, k) + (if v == ConfirmMessagePanel then ConfirmAction(tag, k) else [])
      {
        BindHandlers(g1, yes, v, k);
        BindHandlers(g2, enter, v, k);
        BindHandlers(g3, no, v, k);
      }
    }
    r
  }

  /** CloseConfirmMessage does not panic: the overlay exists, and so does the
      return target once the overlay is gone. */
  predicate CanCloseConfirm(g: State)
  {
    ConfirmMessagePanel in g.views && g.nextPanel in g.views - {ConfirmMessagePanel} && NavigatePanel in g.panels
  }

  /** CloseConfirmMessage: delete the confirmation overlay and its bindings
      and focus the return target. */
  function CloseConfirmMessage(g: State): (r: State)
    requires CanCloseConfirm(g)
    ensures r.views == g.views - {ConfirmMessagePanel}
    ensures forall b :: b in r.bindings <==> b in g.bindings && b.scope != OnView(ConfirmMessagePanel)
    ensures forall b ::
      multiset(r.bindings)[b] == if b.scope == OnView(ConfirmMessagePanel) then 0 else multiset(g.bindings)[b]
    ensures r.bindings == DeleteKeybindings(g.bindings, ConfirmMessagePanel)
    ensures r.current == r.navi == Some(g.nextPanel)
    ensures r.active == g.active && r.nextPanel == g.nextPanel
    ensures r.panels == g.panels && r.panelNames == g.panelNames
  {
    var g1 := g.(views := g.views - {ConfirmMessagePanel},
                 bindings := DeleteKeybindings(g.bindings, ConfirmMessagePanel));
    assert forall b ::
      multiset(g1.bindings)[b] == if b.scope == OnView(ConfirmMessagePanel) then 0 else multiset(g.bindings)[b] by {
      forall b
        ensures multiset(g1.bindings)[b] == if b.scope == OnView(ConfirmMessagePanel) then 0 else multiset(g.bindings)[b]
      {
        DeleteCounts(g.bindings, ConfirmMessagePanel, b);
      }
    }
    SwitchPanel(g1, g1.nextPanel)
  }

  /** StateMessage: open the status overlay, focusing it only when it is
      newly created. It has no key bindings. */
  function StateMessage(g: State): (r: State)
    requires StateMessagePanel !in g.views ==> NavigatePanel in g.panels
    ensures r.views == g.views + {StateMessagePanel}
    ensures r.bindings == g.bindings
    ensures StateMessagePanel !in g.views ==> r.current == r.navi == Some(StateMessagePanel)
    ensures StateMessagePanel in g.views ==> r == g
    ensures r.nextPanel == g.nextPanel && r.active == g.active
    ensures r.panels == g.panels && r.panelNames == g.panelNames
  {
    if StateMessagePanel !in g.views
    then SwitchPanel(g.(views := g.views + {StateMessagePanel}), StateMessagePanel)
    else g
  }

  /** CloseStateMessage: delete the status overlay's view, and nothing more:
      focus is not moved. */
  function CloseStateMessage(g: State): (r: State)
    requires StateMessagePanel in g.views
    ensures r.views == g.views - {StateMessagePanel}
    ensures r.current == g.current && r.navi == g.navi && r.active == g.active
    ensures r.(views := g.views) == g
  {
    g.(views := g.views - {StateMessagePanel})
  }
}
