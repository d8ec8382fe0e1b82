/** Key bindings as the terminal surface keeps them: a list, appended to by
    every SetKeybinding and filtered by DeleteKeybindings. */
module Keys {

  import opened Names

  datatype Key = Ch(c: char) | KeyTab | KeyEnter | KeyCtrlQ

  /** What a key binding runs. CallerAction stands for the function a caller
      hands to ConfirmMessage, known only by a tag. */
  datatype Action =
    | QuitAction
    | PrePanelAction
    | NextPanelAction
    | CloseMessageAction
    | CloseConfirmAction
    | CallerAction(tag: nat)

  /** Where a binding applies: one view, or every view (the program's view name ""). */
  datatype Scope = Global | OnView(name: Name)

  /** A key bound in a scope. */
  datatype Binding = Binding(scope: Scope, key: Key, action: Action)

  /** Binding `b` answers key `k` pressed while view `v` has focus. */
  predicate Fires(b: Binding, v: Name, k: Key)
  {
    b.key == k && (b.scope == OnView(v) || b.scope == Global)
  }

  /** No binding in `bs` is scoped to view `v`. */
  predicate NoneOn(bs: seq<Binding>, v: Name)
  {
    forall b :: b in bs ==> b.scope != OnView(v)
  }

  /** The actions key `k` runs on view `v`: one per answering binding, in the
      order the bindings were made. */
  function Dispatch(bs: seq<Binding>, v: Name, k: Key): seq<Action>
  {
    if |bs| == 0 then []
    else
      var last := bs[|bs| - 1];
      var r := Dispatch(bs[..|bs| - 1], v, k);
      if Fires(last, v, k) then r + [last.action] else r
  }

  /** An action runs iff some binding answering the key runs it. */
  lemma {:induction false} DispatchMembers(bs: seq<Binding>, v: Name, k: Key, a: Action)
    ensures a in Dispatch(bs, v, k) <==> exists b :: b in bs && Fires(b, v, k) && b.action == a
  {
    if |bs| > 0 {
      var init, last := bs[..|bs| - 1], bs[|bs| - 1];
      assert bs == init + [last];
      DispatchMembers(init, v, k, a);
    }
  }

  /** A binding made last runs last, and only when it answers the key. */
  lemma {:induction false} DispatchSnoc(bs: seq<Binding>, b: Binding, v: Name, k: Key)
    ensures Dispatch(bs + [b], v, k) == Dispatch(bs, v, k) + (if Fires(b, v, k) then [b.action] else [])
  {
    assert (bs + [b])[..|bs|] == bs;
  }

  /** A key no binding answers runs nothing. */
  lemma {:induction false} DispatchEmpty(bs: seq<Binding>, v: Name, k: Key)
    requires forall b :: b in bs ==> !Fires(b, v, k)
    ensures Dispatch(bs, v, k) == []
  {
    if |bs| > 0 {
      assert bs[|bs| - 1] in bs;
      DispatchEmpty(bs[..|bs| - 1], v, k);
    }
  }

  /** DeleteKeybindings: the bindings of every scope but view `v`, in their order. */
  function DeleteKeybindings(bs: seq<Binding>, v: Name): (r: seq<Binding>)
    ensures |r| <= |bs|
    ensures forall b :: b in r <==> b in bs && b.scope != OnView(v)
    ensures NoneOn(bs, v) ==> r == bs
  {
    if |bs| == 0 then []
    else
      var last := bs[|bs| - 1];
      var r := DeleteKeybindings(bs[..|bs| - 1], v);
      assert bs == bs[..|bs| - 1] + [last];
      if last.scope != OnView(v) then r + [last] else r
  }

  /** Deleting after a new binding: the binding goes exactly when it is on `v`. */
  lemma {:induction false} DeleteSnoc(bs: seq<Binding>, b: Binding, v: Name)
    ensures DeleteKeybindings(bs + [b], v)
         == DeleteKeybindings(bs, v) + (if b.scope != OnView(v) then [b] else [])
  {
    assert (bs + [b])[..|bs|] == bs;
  }

  /** The actions the bindings of every view run for key `k`, in the order
      they were made. */
  function GlobalDispatch(bs: seq<Binding>, k: Key): seq<Action>
  {
    if |bs| == 0 then []
    else
      var last := bs[|bs| - 1];
      var r := GlobalDispatch(bs[..|bs| - 1], k);
      if last.scope == Global && last.key == k then r + [last.action] else r
  }

  /** After the bindings of view `v` are deleted, a key on every other view
      runs what it ran before, in the same order. */
  lemma {:induction false} DeleteKeepsOtherViews(bs: seq<Binding>, v: Name, w: Name, k: Key)
    requires w != v
    ensures Dispatch(DeleteKeybindings(bs, v), w, k) == Dispatch(bs, w, k)
  {
    if |bs| > 0 {
      var init, last := bs[..|bs| - 1], bs[|bs| - 1];
      assert bs == init + [last];
      DeleteKeepsOtherViews(init, v, w, k);
      DeleteSnoc(init, last, v);
      DispatchSnoc(init, last, w, k);
      if last.scope != OnView(v) {
        DispatchSnoc(DeleteKeybindings(init, v), last, w, k);
      }
    }
  }

  /** After the bindings of view `v` are deleted, a key on `v` runs only
      what the bindings of every view run. */
  lemma {:induction false} DeleteLeavesGlobal(bs: seq<Binding>, v: Name, k: Key)
    ensures Dispatch(DeleteKeybindings(bs, v), v, k) == GlobalDispatch(bs, k)
  {
    if |bs| > 0 {
      var init, last := bs[..|bs| - 1], bs[|bs| - 1];
      assert bs == init + [last];
      DeleteLeavesGlobal(init, v, k);
      DeleteSnoc(init, last, v);
      if last.scope != OnView(v) {
        DispatchSnoc(DeleteKeybindings(init, v), last, v, k);
      }
    }
  }

  /** Both together: what a key runs on any view after a delete. */
  lemma DispatchAfterDelete(bs: seq<Binding>, v: Name, w: Name, k: Key)
    ensures Dispatch(DeleteKeybindings(bs, v), w, k)
         == if w == v then GlobalDispatch(bs, k) else Dispatch(bs, w, k)
  {
    if w == v {
      DeleteLeavesGlobal(bs, v, k);
    } else {
      DeleteKeepsOtherViews(bs, v, w, k);
    }
  }

  /** On a view with no bindings of its own, a key runs exactly what the
      bindings of every view run. */
  lemma {:induction false} GlobalDispatchOnBareView(bs: seq<Binding>, v: Name, k: Key)
    requires NoneOn(bs, v)
    ensures GlobalDispatch(bs, k) == Dispatch(bs, v, k)
  {
    if |bs| > 0 {
      var init, last := bs[..|bs| - 1], bs[|bs| - 1];
      assert bs == init + [last];
      assert last in bs;
      GlobalDispatchOnBareView(init, v, k);
    }
  }

  /** Deleting keeps every other binding as many times as it was made. */
  lemma {:induction false} DeleteCounts(bs: seq<Binding>, v: Name, b: Binding)
    ensures multiset(DeleteKeybindings(bs, v))[b] == if b.scope == OnView(v) then 0 else multiset(bs)[b]
  {
    if |bs| > 0 {
      var init, last := bs[..|bs| - 1], bs[|bs| - 1];
      assert bs == init + [last];
      DeleteCounts(init, v, b);
      DeleteSnoc(init, last, v);
    }
  }
}
