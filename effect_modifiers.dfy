/**
 * The effect-modifier controller: one object per running client that keeps the
 * effect-modifier popout's visibility and its displayed token in step with the
 * host's token-control, token-update and effect-creation notifications, and with
 * a toggle button in the token controls of the scene toolbar.
 *
 * Host hooks become methods the caller invokes; the client setting that enables
 * the button is an input; the toolbar is the object whose tool list the host
 * renders and the controller looks its button up in.
 */
module EffectModifiers {
  import opened Wrappers
  import opened Canvas
  import opened SceneToolbar
  import opened EffectModifierPopout

  /** The `data-tool` name of the toggle button. */
  const EffectModName := "GURPSEffectsMod"

  /**
   * The token tracked after the host reports that `t` became controlled
   * (`isControlled`) or released.
   */
  function NextTracked(current: Option<Token>, t: Token, isControlled: bool): (r: Option<Token>)
    // selecting a token always tracks it
    ensures isControlled ==> r == Some(t)
    // a released token is never tracked afterwards, and a release never starts tracking anything
    ensures !isControlled ==> r != Some(t) && (r == current || r == None)
    // a notification about `t` changes nothing for another tracked token
    ensures r != current ==> r == Some(t) || current == Some(t)
  {
    if isControlled then Some(t)
    else if current == Some(t) then None
    else current
  }

  /** The popout calls of one visibility flip, given the flag after the flip. */
  function TransitionCalls(show: bool, token: Option<Token>, options: CloseOptions): (r: seq<UiCall>)
    // opening pushes the token first and ends with a forcing render, and never closes
    ensures show ==> |r| == 2 && r[0] == SetTokenCall(token) && r[|r| - 1] == RenderCall(true)
    ensures show ==> forall c :: c in r ==> !c.CloseAppCall?
    // hiding issues the close with the given options and nothing else
    ensures !show ==> |r| == 1 && forall c :: c in r ==> c == CloseAppCall(options)
  {
    if show then [SetTokenCall(token), RenderCall(true)] else [CloseAppCall(options)]
  }

  /**
   * A flip leaves the popout window open exactly when the flag says visible; on
   * opening it shows the tracked token, on closing the displayed token is kept.
   */
  lemma TransitionEffect(calls: seq<UiCall>, show: bool, token: Option<Token>, options: CloseOptions)
    ensures ViewShown(calls + TransitionCalls(show, token, options)) == show
    ensures DisplayedToken(calls + TransitionCalls(show, token, options))
      == if show then token else DisplayedToken(calls)
  {
    if show {
      assert calls + TransitionCalls(show, token, options)
        == (calls + [SetTokenCall(token)]) + [RenderCall(true)];
      AfterCall(calls, SetTokenCall(token));
      AfterCall(calls + [SetTokenCall(token)], RenderCall(true));
    } else {
      AfterCall(calls, CloseAppCall(options));
    }
  }

  class EffectModifierControl {
    /** Whether the popout is meant to be visible (`_showPopup`). */
    var showPopup: bool
    /** The token currently controlled, if any. */
    var token: Option<Token>
    /** Deferred non-forcing renders scheduled by token-control changes and not yet run. */
    var pendingRenders: nat
    /** The popout, created once the host is ready. */
    const ui: Popout

    /**
     * The popout always displays the tracked token, and its window is open exactly
     * when the flag says visible.
     */
    ghost predicate Valid()
      reads this, ui
    {
      DisplayedToken(ui.calls) == token && ViewShown(ui.calls) == showPopup
    }

    /**
     * The toolbar holds at most one toggle button, and the first one carries the
     * `active` class exactly when the popout is meant to be visible.
     */
    ghost predicate SyncedWith(bar: Toolbar)
      reads this, bar
    {
      CountNamed(bar.tools, EffectModName) <= 1 && ActiveAgrees(bar.tools, EffectModName, showPopup)
    }

    constructor ()
      ensures !showPopup && token == None && pendingRenders == 0
      ensures fresh(ui) && ui.calls == []
      ensures Valid()
    {
      showPopup := false;
      token := None;
      pendingRenders := 0;
      ui := new Popout();
    }

    /**
     * The `showPopup` setter: flips only when `b` differs from the flag, so setting
     * the current value changes nothing.
     */
    method SetShowPopup(b: bool, bar: Toolbar)
      requires Valid()
      requires b != showPopup ==> FindTool(bar.tools, EffectModName).Some?
      modifies this, ui, bar
      ensures showPopup == b && token == old(token) && pendingRenders == old(pendingRenders)
      ensures b == old(showPopup) ==> ui.calls == old(ui.calls) && bar.tools == old(bar.tools)
      ensures b != old(showPopup) ==>
        ui.calls == old(ui.calls) + TransitionCalls(b, token, Undefined)
        && bar.tools == ToggleFirst(old(bar.tools), EffectModName)
      ensures Valid()
      ensures old(SyncedWith(bar)) ==> SyncedWith(bar)
    {
      if b != showPopup {
        TogglePopup(Undefined, bar);
      }
    }

    /**
     * Flips the flag and the toggle button's `active` class, then opens the popout
     * on the tracked token or closes it with `options`.
     */
    method TogglePopup(options: CloseOptions, bar: Toolbar)
      requires Valid()
      requires FindTool(bar.tools, EffectModName).Some?
      modifies this, ui, bar
      ensures showPopup == !old(showPopup) && token == old(token) && pendingRenders == old(pendingRenders)
      ensures bar.tools == ToggleFirst(old(bar.tools), EffectModName)
      ensures ui.calls == old(ui.calls) + TransitionCalls(showPopup, token, options)
      ensures Valid()
      ensures old(SyncedWith(bar)) ==> SyncedWith(bar)
    {
      showPopup := !showPopup;
      ToggleKeepsLookup(bar.tools, EffectModName);
      if ActiveAgrees(bar.tools, EffectModName, !showPopup) {
        ToggleFlips(bar.tools, EffectModName, !showPopup);
      }
      bar.ToggleActive(EffectModName);
      ToggleEffectModifierPopup(options);
    }

    /**
     * Applies the flag to the popout: when visible, pushes the tracked token and
     * forces a render; otherwise closes it with `options` and does nothing else.
     */
    method ToggleEffectModifierPopup(options: CloseOptions)
      modifies ui
      ensures ui.calls == old(ui.calls) + TransitionCalls(showPopup, token, options)
      ensures ViewShown(ui.calls) == showPopup
      ensures DisplayedToken(ui.calls) == if showPopup then token else old(DisplayedToken(ui.calls))
    {
      TransitionEffect(ui.calls, showPopup, token, options);
      if showPopup {
        ui.SetToken(token);
        ui.Render(true);
      } else {
        ui.CloseApp(options);
      }
    }

    /**
     * The toolbar render hook: adds the toggle button, marked active when the
     * popout is visible, if the setting is `enabled` and the toolbar has none yet.
     */
    method CreateEffectModifierButton(bar: Toolbar, enabled: bool)
      modifies bar
      ensures bar.tools == WithButton(old(bar.tools), enabled, EffectModName, showPopup)
      ensures CountNamed(bar.tools, EffectModName) <= 1 <==> old(CountNamed(bar.tools, EffectModName)) <= 1
      ensures old(SyncedWith(bar)) ==> SyncedWith(bar)
      ensures old(CountNamed(bar.tools, EffectModName)) == 0 ==> SyncedWith(bar)
    {
      InsertOnce(bar.tools, enabled, EffectModName, showPopup, showPopup);
      if enabled && CountNamed(bar.tools, EffectModName) == 0 {
        bar.Append(Tool(EffectModName, showPopup));
      }
    }

    /**
     * The active-effect creation hook: refreshes the popout when the new effect
     * belongs to the actor the tracked token represents at the moment of the
     * notification, and otherwise does nothing. `actorOf` gives, for each canvas
     * token, the id of the actor it currently represents.
     */
    method CreateActiveEffect(effect: ActiveEffect, actorOf: Token -> Id)
      requires Valid()
      modifies ui
      ensures ui.calls == old(ui.calls)
        + if token.Some? && effect.parentId == actorOf(token.value) then [RenderCall(false)] else []
      ensures Valid()
    {
      if token.Some? && effect.parentId == actorOf(token.value) {
        AfterCall(ui.calls, RenderCall(false));
        ui.Render(false);
      }
    }

    /**
     * The token update hook: refreshes the popout when the updated document's
     * canvas object is the tracked token (two absent ones count as the same), and
     * otherwise does nothing.
     */
    method UpdateToken(doc: TokenDocument)
      requires Valid()
      modifies ui
      ensures ui.calls == old(ui.calls) + if doc.placed == token then [RenderCall(false)] else []
      ensures Valid()
    {
      if doc.placed == token {
        AfterCall(ui.calls, RenderCall(false));
        ui.Render(false);
      }
    }

    /**
     * The token control hook: tracks `t` when it becomes controlled, forgets it when
     * it is released while tracked, always pushes the tracked token to the popout,
     * and schedules one deferred non-forcing render.
     */
    method ControlToken(t: Token, isControlled: bool)
      requires Valid()
      modifies this, ui
      ensures token == NextTracked(old(token), t, isControlled)
      ensures showPopup == old(showPopup) && pendingRenders == old(pendingRenders) + 1
      ensures ui.calls == old(ui.calls) + [SetTokenCall(token)]
      ensures Valid()
    {
      if isControlled {
        token := Some(t);
      } else if token == Some(t) {
        token := None;
      }
      AfterCall(ui.calls, SetTokenCall(token));
      ui.SetToken(token);
      pendingRenders := pendingRenders + 1;
    }

    /**
     * One deferred render fires: a non-forcing render of the popout, which changes
     * neither the displayed token nor whether the window is open.
     */
    method FireDeferredRender()
      requires Valid() && pendingRenders > 0
      modifies this, ui
      ensures pendingRenders == old(pendingRenders) - 1
      ensures showPopup == old(showPopup) && token == old(token)
      ensures ui.calls == old(ui.calls) + [RenderCall(false)]
      ensures Valid()
    {
      AfterCall(ui.calls, RenderCall(false));
      ui.Render(false);
      pendingRenders := pendingRenders - 1;
    }

    /**
     * Hides the popout, passing `options` to `closeApp`, if it is visible; a second
     * call does nothing.
     */
    method Close(options: CloseOptions, bar: Toolbar)
      requires Valid()
      requires showPopup ==> FindTool(bar.tools, EffectModName).Some?
      modifies this, ui, bar
      ensures !showPopup && token == old(token) && pendingRenders == old(pendingRenders)
      ensures old(showPopup) ==>
        ui.calls == old(ui.calls) + [CloseAppCall(options)]
        && bar.tools == ToggleFirst(old(bar.tools), EffectModName)
      ensures !old(showPopup) ==> ui.calls == old(ui.calls) && bar.tools == old(bar.tools)
      ensures Valid()
      ensures old(SyncedWith(bar)) ==> SyncedWith(bar)
    {
      if showPopup {
        TogglePopup(options, bar);
      }
    }

    /** The popout's own close notification: sets the flag to false through the setter. */
    method OnPopoutClosed(bar: Toolbar)
      requires Valid()
      requires showPopup ==> FindTool(bar.tools, EffectModName).Some?
      modifies this, ui, bar
      ensures !showPopup && token == old(token) && pendingRenders == old(pendingRenders)
      ensures old(showPopup) ==>
        ui.calls == old(ui.calls) + [CloseAppCall(Undefined)]
        && bar.tools == ToggleFirst(old(bar.tools), EffectModName)
      ensures !old(showPopup) ==> ui.calls == old(ui.calls) && bar.tools == old(bar.tools)
      ensures Valid()
      ensures old(SyncedWith(bar)) ==> SyncedWith(bar)
    {
      SetShowPopup(false, bar);
    }
  }
}
