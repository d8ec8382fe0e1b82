/** Properties of the focus and overlay state machine that relate several
    transitions: cycling, the overlay round trips, and the behaviours the
    program shows as written (a duplicated cycle slot, a focus index that
    drifts from the focused view, a status overlay that leaves focus on a
    deleted view). */
module GuiProperties {

  import opened Wrappers
  import opened Names
  import opened Keys
  import opened Gui
  import Geometry
  import GoInt

  /** A well-formed state can cycle both ways without panicking. */
  lemma ValidCanCycle(g: State)
    requires Valid(g)
    ensures CanNext(g) && CanPre(g)
  {
  }

  /** The slot reached from slot `a` after `k` forward steps around a cycle
      of `n` slots, stepping past the last slot onto the first. */
  function Advance(a: int, k: nat, n: int): int
  {
    if k == 0 then a
    else
      var b := Advance(a, k - 1, n);
      if b + 1 == n then 0 else b + 1
  }

  /** Taking j steps and then m more is taking j + m steps. */
  lemma {:induction false} AdvanceAppend(a: int, j: nat, m: nat, n: int)
    ensures Advance(a, j + m, n) == Advance(Advance(a, j, n), m, n)
  {
    if m > 0 {
      AdvanceAppend(a, j, m - 1, n);
    }
  }

  /** Below the last slot, each step moves to the next slot. */
  lemma {:induction false} AdvanceClimb(a: int, j: nat, n: int)
    requires 0 <= a && a + j < n
    ensures Advance(a, j, n) == a + j
  {
    if j > 0 {
      AdvanceClimb(a, j - 1, n);
    }
  }

  /** n steps around a cycle of n slots come back to the start. */
  lemma {:induction false} AdvanceRound(a: int, n: int)
    requires 0 <= a < n
    ensures Advance(a, n, n) == a
  {
    AdvanceClimb(a, n - a - 1, n);
    assert Advance(a, n - a, n) == 0;
    AdvanceAppend(a, n - a, a, n);
    if a > 0 {
      AdvanceClimb(0, a, n);
    }
  }

  /** Stepping is the remainder of the sum by the number of slots. */
  lemma {:induction false} AdvanceIsRemainder(a: int, k: nat, n: int)
    requires 0 <= a < n
    ensures Advance(a, k, n) == (a + k) % n
  {
    if k > 0 {
      AdvanceIsRemainder(a, k - 1, n);
      var b := Advance(a, k - 1, n);
      GoInt.ModStep(a + k - 1, n);
      GoInt.RemSucc(b, n);
    }
  }

  /** nextPanel applied k times. */
  function Cycle(g: State, k: nat): (r: State)
    requires Valid(g)
    ensures Valid(r)
    ensures r.active == Advance(g.active, k, |g.panelNames|)
    ensures k > 0 ==> r.current == r.navi == Some(r.panelNames[r.active])
    ensures r.panelNames == g.panelNames && r.views == g.views && r.panels == g.panels
    ensures r.nextPanel == g.nextPanel && r.bindings == g.bindings
  {
    if k == 0 then g
    else
      var h := Cycle(g, k - 1);
      ValidCanCycle(h);
      GoInt.RemSucc(h.active, |g.panelNames|);
      NextPanel(h)
  }

  /** Cycling forward once per panel in the cycle comes back to the start. */
  lemma {:induction false} CycleClosure(g: State)
    requires Valid(g)
    ensures Cycle(g, |g.panelNames|).active == g.active
    ensures Cycle(g, |g.panelNames|).current == Some(g.panelNames[g.active])
  {
    AdvanceRound(g.active, |g.panelNames|);
  }

  /** prePanel undoes nextPanel. */
  lemma PreUndoesNext(g: State)
    requires Valid(g)
    ensures CanPre(NextPanel(g))
    ensures PrePanel(NextPanel(g)).active == g.active
    ensures PrePanel(NextPanel(g)).current == Some(g.panelNames[g.active])
  {
    ValidCanCycle(g);
    GoInt.RemSucc(g.active, |g.panelNames|);
    ValidCanCycle(NextPanel(g));
    if g.active + 1 < |g.panelNames| {
      GoInt.RemPred(g.active + 1, |g.panelNames|);
    }
  }

  /** nextPanel undoes prePanel. */
  lemma NextUndoesPre(g: State)
    requires Valid(g)
    ensures CanNext(PrePanel(g))
    ensures NextPanel(PrePanel(g)).active == g.active
    ensures NextPanel(PrePanel(g)).current == Some(g.panelNames[g.active])
  {
    ValidCanCycle(g);
    if 0 < g.active {
      GoInt.RemPred(g.active, |g.panelNames|);
    }
    ValidCanCycle(PrePanel(g));
    GoInt.RemSucc(PrePanel(g).active, |g.panelNames|);
  }

  /** From startup, three steps forward reach the detail panel and a fourth
      returns to the image list. */
  lemma {:induction false} StartupCycle(maxX: int, maxY: int)
    ensures Cycle(New(maxX, maxY), 3).current == Some(DetailPanel)
    ensures Cycle(New(maxX, maxY), 4).current == Some(ImageListPanel)
  {
    StartupSteps(New(maxX, maxY));
  }

  /** The same steps from any valid state with the startup cycle focused on
      its first slot. */
  lemma {:induction false} StartupSteps(g: State)
    requires Valid(g) && g.active == 0
    requires g.panelNames == [ImageListPanel, ContainerListPanel, VolumeListPanel, DetailPanel]
    ensures Cycle(g, 3).current == Some(DetailPanel)
    ensures Cycle(g, 4).current == Some(ImageListPanel)
  {
    AdvanceClimb(0, 3, 4);
    assert Cycle(g, 3).active == 3;
    CycleClosure(g);
  }

  /** StorePanels adds one cycle slot for a cyclable name on every call, and
      none otherwise. */
  lemma StorePanelsAddsSlot(g: State, p: Panel)
    ensures multiset(StorePanels(g, p).panelNames)[p.name]
         == multiset(g.panelNames)[p.name] + (if p.name in Cyclable then 1 else 0)
  {
  }

  /** Registering the image list again after startup gives it a second cycle
      slot: four steps forward from it land on it again. */
  lemma {:induction false} ReregistrationDuplicatesSlot(maxX: int, maxY: int, rect: Geometry.Rect)
    ensures var r := StorePanels(New(maxX, maxY), Panel(ImageListPanel, rect));
      && r.panelNames == [ImageListPanel, ContainerListPanel, VolumeListPanel, DetailPanel, ImageListPanel]
      && Valid(r)
      && Cycle(r, 4).active == 4
      && Cycle(r, 4).current == Some(ImageListPanel)
  {
    var g := New(maxX, maxY);
    ReregisterAfterStartup(g, rect);
    CycleToLast(StorePanels(g, Panel(ImageListPanel, rect)));
  }

  /** The same registration on any valid state with the startup cycle
      focused on its first slot: a fifth slot, the image list again, and
      the state stays well formed. */
  lemma {:induction false} ReregisterAfterStartup(g: State, rect: Geometry.Rect)
    requires Valid(g) && g.active == 0
    requires g.panelNames == [ImageListPanel, ContainerListPanel, VolumeListPanel, DetailPanel]
    ensures var r := StorePanels(g, Panel(ImageListPanel, rect));
      && r.panelNames == [ImageListPanel, ContainerListPanel, VolumeListPanel, DetailPanel, ImageListPanel]
      && Valid(r) && r.active == 0
  {
    var r := StorePanels(g, Panel(ImageListPanel, rect));
    assert r.views == g.views && g.panelNames[0] in g.views;
  }

  /** From the first of five slots, four steps forward land on the last. */
  lemma {:induction false} CycleToLast(h: State)
    requires Valid(h) && |h.panelNames| == 5 && h.active == 0
    ensures Cycle(h, 4).active == 4
    ensures Cycle(h, 4).current == Some(h.panelNames[4])
  {
    AdvanceClimb(0, 4, 5);
  }

  /** No binding of every view answers one of the panel keys. */
  predicate NoGlobalPanelKeys(g: State)
  {
    forall b :: b in g.bindings && b.scope == Global ==>
      b.key != Ch('q') && b.key != Ch('h') && b.key != Ch('l') && b.key != KeyTab
  }

  /** On a view without bindings of its own, the panel key table makes 'q',
      'h', 'l' and Tab each run exactly one action, and deleting the view's
      bindings gives back the bindings there were before. */
  lemma {:induction false} KeyTableOnFreshView(g: State, p: Name)
    requires NoneOn(g.bindings, p)
    requires NoGlobalPanelKeys(g)
    ensures var r := SetKeyBindingToPanel(g, p);
      && Handlers(r, p, Ch('q')) == [QuitAction]
      && Handlers(r, p, Ch('h')) == [PrePanelAction]
      && Handlers(r, p, Ch('l')) == [NextPanelAction]
      && Handlers(r, p, KeyTab) == [NextPanelAction]
      && DeleteKeybindings(r.bindings, p) == g.bindings
  {
    var r := SetKeyBindingToPanel(g, p);
    PanelKeyOnFreshView(g, p, Ch('q'));
    PanelKeyOnFreshView(g, p, Ch('h'));
    PanelKeyOnFreshView(g, p, Ch('l'));
    PanelKeyOnFreshView(g, p, KeyTab);
    var n := |g.bindings|;
    assert r.bindings[..n] == g.bindings;
    DeleteUpTo(r.bindings, n, p);
  }

  /** One key of the panel key table on a view without bindings of its own:
      it runs what the table binds and nothing else. */
  lemma {:induction false} PanelKeyOnFreshView(g: State, p: Name, k: Key)
    requires NoneOn(g.bindings, p) && NoGlobalPanelKeys(g)
    requires k == Ch('q') || k == Ch('h') || k == Ch('l') || k == KeyTab
    ensures Handlers(SetKeyBindingToPanel(g, p), p, k) == PanelAction(k)
  {
    DispatchEmpty(g.bindings, p, k);
  }

  /** Deleting the bindings of `v` from a list whose tail past `n` is all on
      `v` gives the deletion from the first `n` bindings. */
  lemma {:induction false} DeleteUpTo(bs: seq<Binding>, n: nat, v: Name)
    requires n <= |bs|
    requires forall i :: n <= i < |bs| ==> bs[i].scope == OnView(v)
    ensures DeleteKeybindings(bs, v) == DeleteKeybindings(bs[..n], v)
  {
    if n < |bs| {
      var init, last := bs[..|bs| - 1], bs[|bs| - 1];
      assert init[..n] == bs[..n];
      assert forall i :: n <= i < |init| ==> init[i] == bs[i];
      assert last.scope == OnView(v);
      DeleteUpTo(init, n, v);
      assert DeleteKeybindings(bs, v) == DeleteKeybindings(init, v) by {
        assert bs == init + [last];
        DeleteSnoc(init, last, v);
      }
    } else {
      assert bs[..n] == bs;
    }
  }

  /** Opening the error overlay and acknowledging it with Enter puts the
      dashboard back as it was, except that the recorded panel has focus:
      the overlay's view and binding are gone and the focus index is
      untouched. */
  lemma {:induction false} ErrorOverlayRoundTrip(g: State, p: Name)
    requires NavigatePanel in g.panels && ErrMessagePanel !in g.views && NoneOn(g.bindings, ErrMessagePanel)
    requires p in g.views
    ensures var g1 := ErrMessage(g, p);
      && g1.current == Some(ErrMessagePanel)
      && Handlers(g1, ErrMessagePanel, KeyEnter) == Handlers(g, ErrMessagePanel, KeyEnter) + [CloseMessageAction]
      && CanCloseMessage(g1, ErrMessagePanel)
      && CloseMessage(g1, ErrMessagePanel) == g.(nextPanel := p, current := Some(p), navi := Some(p))
  {
    var enter := Binding(OnView(ErrMessagePanel), KeyEnter, CloseMessageAction);
    var g1 := ErrMessage(g, p);
    assert g1.bindings == g.bindings + [enter];
    assert DeleteKeybindings(g1.bindings, ErrMessagePanel) == g.bindings by {
      DeleteSnoc(g.bindings, enter, ErrMessagePanel);
    }
    var g2 := CloseMessage(g1, ErrMessagePanel);
    assert g2.bindings == g.bindings && g2.views == g.views;
  }

  /** No binding of every view answers one of the confirmation keys. */
  predicate NoGlobalConfirmKeys(g: State)
  {
    forall b :: b in g.bindings && b.scope == Global ==> b.key != Ch('y') && b.key != Ch('n') && b.key != KeyEnter
  }

  /** On a freshly opened confirmation overlay, 'y' and Enter run only the
      caller's action and 'n' runs only the cancel; cancelling removes the
      overlay and its bindings and focuses the return target, which the
      overlay did not change. */
  lemma {:induction false} ConfirmCancelRoundTrip(g: State, tag: nat)
    requires NavigatePanel in g.panels && ConfirmMessagePanel !in g.views
    requires NoneOn(g.bindings, ConfirmMessagePanel) && NoGlobalConfirmKeys(g)
    requires g.nextPanel in g.views
    ensures var g1 := ConfirmMessage(g, tag);
      && g1.nextPanel == g.nextPanel
      && Handlers(g1, ConfirmMessagePanel, Ch('y')) == [CallerAction(tag)]
      && Handlers(g1, ConfirmMessagePanel, KeyEnter) == [CallerAction(tag)]
      && Handlers(g1, ConfirmMessagePanel, Ch('n')) == [CloseConfirmAction]
      && CanCloseConfirm(g1)
      && CloseConfirmMessage(g1) == g.(current := Some(g.nextPanel), navi := Some(g.nextPanel))
  {
    var g1 := ConfirmMessage(g, tag);
    DispatchEmpty(g.bindings, ConfirmMessagePanel, Ch('y'));
    DispatchEmpty(g.bindings, ConfirmMessagePanel, KeyEnter);
    DispatchEmpty(g.bindings, ConfirmMessagePanel, Ch('n'));
    assert Handlers(g1, ConfirmMessagePanel, Ch('y')) == Handlers(g, ConfirmMessagePanel, Ch('y')) + ConfirmAction(tag, Ch('y'));
    assert Handlers(g1, ConfirmMessagePanel, KeyEnter) == Handlers(g, ConfirmMessagePanel, KeyEnter) + ConfirmAction(tag, KeyEnter);
    assert Handlers(g1, ConfirmMessagePanel, Ch('n')) == Handlers(g, ConfirmMessagePanel, Ch('n')) + ConfirmAction(tag, Ch('n'));
    var n := |g.bindings|;
    assert g1.bindings[..n] == g.bindings;
    DeleteUpTo(g1.bindings, n, ConfirmMessagePanel);
    var g2 := CloseConfirmMessage(g1);
    assert g2.bindings == g.bindings;
    assert g2.views == g.views;
  }

  /** After CloseMessage, a key on every other view runs what it ran before,
      in the same order; on the closed view only the bindings of every view
      answer it. */
  lemma CloseMessageHandlers(g: State, v: Name, w: Name, k: Key)
    requires CanCloseMessage(g, v)
    ensures Handlers(CloseMessage(g, v), w, k)
         == if w == v then GlobalDispatch(g.bindings, k) else Handlers(g, w, k)
  {
    DispatchAfterDelete(g.bindings, v, w, k);
  }

  /** The same for CloseConfirmMessage and the confirmation overlay. */
  lemma CloseConfirmHandlers(g: State, w: Name, k: Key)
    requires CanCloseConfirm(g)
    ensures Handlers(CloseConfirmMessage(g), w, k)
         == if w == ConfirmMessagePanel then GlobalDispatch(g.bindings, k) else Handlers(g, w, k)
  {
    DispatchAfterDelete(g.bindings, ConfirmMessagePanel, w, k);
  }

  /** The status overlay takes focus when it opens and does not give it back
      when it closes: the current view names a view that no longer exists. */
  lemma StateOverlayLeavesStaleFocus(g: State)
    requires NavigatePanel in g.panels && StateMessagePanel !in g.views
    ensures var g2 := CloseStateMessage(StateMessage(g));
      && g2 == g.(current := Some(StateMessagePanel), navi := Some(StateMessagePanel))
      && g2.current.value !in g2.views
  {
  }

  /** Opening the error overlay while it is open makes no second view and
      does not move focus, but replaces the return target and binds Enter to
      CloseMessage a second time: Enter on the overlay then runs CloseMessage
      twice. */
  lemma ErrorOverlayReopen(g: State, p: Name, q: Name)
    requires ErrMessagePanel !in g.views ==> NavigatePanel in g.panels
    ensures var g1 := ErrMessage(g, p);
      && ErrMessage(g1, q)
         == g1.(nextPanel := q, bindings := g1.bindings + [Binding(OnView(ErrMessagePanel), KeyEnter, CloseMessageAction)])
      && Handlers(ErrMessage(g1, q), ErrMessagePanel, KeyEnter)
         == Handlers(g, ErrMessagePanel, KeyEnter) + [CloseMessageAction, CloseMessageAction]
  {
  }

  /** Of the two CloseMessage runs Enter triggers on a reopened error
      overlay, the first closes it and the second finds no view to delete,
      the panicking case. */
  lemma SecondCloseFindsNoView(g: State, p: Name, q: Name)
    requires NavigatePanel in g.panels && q in g.views && q != ErrMessagePanel
    ensures var g2 := ErrMessage(ErrMessage(g, p), q);
      && CanCloseMessage(g2, ErrMessagePanel)
      && !CanCloseMessage(CloseMessage(g2, ErrMessagePanel), ErrMessagePanel)
  {
  }

  /** Opening the confirmation overlay while it is open makes no second view
      and does not move focus, but binds 'y', Enter and 'n' on it again: 'y'
      then runs both callers' actions, and 'n' runs CloseConfirmMessage
      twice. */
  lemma ConfirmReopen(g: State, t1: nat, t2: nat)
    requires ConfirmMessagePanel !in g.views ==> NavigatePanel in g.panels
    ensures var g1 := ConfirmMessage(g, t1);
      var g2 := ConfirmMessage(g1, t2);
      && g2.views == g1.views && g2.current == g1.current && g2.nextPanel == g.nextPanel
      && |g2.bindings| == |g.bindings| + 6
      && Handlers(g2, ConfirmMessagePanel, Ch('y'))
         == Handlers(g, ConfirmMessagePanel, Ch('y')) + [CallerAction(t1), CallerAction(t2)]
      && Handlers(g2, ConfirmMessagePanel, Ch('n'))
         == Handlers(g, ConfirmMessagePanel, Ch('n')) + [CloseConfirmAction, CloseConfirmAction]
  {
  }

  /** Of the two CloseConfirmMessage runs 'n' triggers on a reopened
      confirmation overlay, the first closes it and the second finds no view
      to delete, the panicking case. */
  lemma SecondCancelFindsNoView(g: State, t1: nat, t2: nat)
    requires NavigatePanel in g.panels && g.nextPanel in g.views && g.nextPanel != ConfirmMessagePanel
    ensures var g2 := ConfirmMessage(ConfirmMessage(g, t1), t2);
      && CanCloseConfirm(g2)
      && !CanCloseConfirm(CloseConfirmMessage(g2))
  {
  }

  /** Closing an overlay onto another panel leaves the focus index behind:
      after an error reported for the container list, the container list has
      focus while the index still points at the image list, so the next
      nextPanel focuses the container list again. */
  lemma ActiveDrift(maxX: int, maxY: int)
    ensures var g1 := ErrMessage(New(maxX, maxY), ContainerListPanel);
      && CanCloseMessage(g1, ErrMessagePanel)
      && var g2 := CloseMessage(g1, ErrMessagePanel);
      && g2.current == Some(ContainerListPanel)
      && g2.panelNames[g2.active] == ImageListPanel
      && CanNext(g2)
      && NextPanel(g2).current == Some(ContainerListPanel)
  {
  }

  /** Two overlays in a row: after errors reported for the container list
      and then the volume list are closed, the volume list has focus, the
      container list had it before the second overlay, and the index names
      neither: it still names the image list. */
  lemma DriftTwice(maxX: int, maxY: int)
    ensures var g1 := ErrMessage(New(maxX, maxY), ContainerListPanel);
      && CanCloseMessage(g1, ErrMessagePanel)
      && var g2 := CloseMessage(g1, ErrMessagePanel);
      && g2.current == Some(ContainerListPanel)
      && var g3 := ErrMessage(g2, VolumeListPanel);
      && CanCloseMessage(g3, ErrMessagePanel)
      && var g4 := CloseMessage(g3, ErrMessagePanel);
      && g4.current == Some(VolumeListPanel)
      && g4.panelNames[g4.active] == ImageListPanel
  {
  }
}
