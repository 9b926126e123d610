# Effect-modifier control and maneuver HUD selection (GURPS system for a virtual tabletop)

This project models two pieces of the GURPS game system's client-side glue.

**The effect-modifier controller** (`EffectModifiers.EffectModifierControl`) owns the flag `showPopup` and the
tracked `token`. It reacts to host notifications: a token becoming controlled or released, a token document being
updated, an active effect being created, the toolbar being rendered and the popout closing itself. It issues three
commands to the effect-modifier popout: `setToken`, `render(force)` and `closeApp(options)`. It also toggles the
`active` class of its button in the token controls of the scene toolbar.

- The popout is an opaque collaborator. `EffectModifierPopout.Popout` records the calls it receives in `calls`.
- `DisplayedToken(calls)` and `ViewShown(calls)` interpret that trace: the token the popout shows and whether its
  window is open.
- The controller's invariant `Valid()` holds after every operation. It says the popout always displays the tracked
  token, and its window is open exactly when `showPopup` is true.
- The scene toolbar is a `SceneToolbar.Toolbar` holding the token controls' tools, each with a name and an `active`
  class. `SyncedWith(bar)` says the toolbar holds at most one toggle button and that the button's class agrees
  with the flag. Toggling, the setter, `close` and button creation all preserve it.
- A canvas token (`Canvas.Token`) is its object identity alone. The actor a token represents is host state that can
  change while the token is tracked, so `CreateActiveEffect` receives it as the input `actorOf`.
- The host's `setTimeout` re-render is a counter of pending renders. `FireDeferredRender` runs one of them at any
  later point, and it preserves `Valid()`.

**The maneuver HUD button's selection functions** (`ManeuverHUDButton`) are pure functions over a token record and
its actor. They pick the images to offer, replacing a lone placeholder image by the other one, and the titles to
offer, depending on the token's display mode.

Two behaviours of the code are kept as written:

- The `closeEffectModifierPopout` hook (module/actor/effect-modifier-control.js:19) resets the flag through the
  setter. When the flag was set, this goes through `togglePopup`: `closeApp` is issued once more and the button's
  class is toggled. `OnPopoutClosed` records that call.
- `_updateToken` compares with `===`. When no token is tracked, an update of a token document with no canvas
  object therefore compares `null === null` and triggers a non-forcing render. `UpdateToken` keeps this case.

## Model

| member | source | states |
|---|---|---|
| `EffectModifiers.NextTracked` | module/actor/effect-modifier-control.js:91-92 | Controlling `t` tracks `t`. Releasing `t` leaves `t` untracked and never starts tracking anything. A notification about `t` never changes the tracking of a different token. |
| `EffectModifiers.TransitionCalls` | module/actor/effect-modifier-control.js:111-116 | The calls of one visibility flip: when opening, `setToken(token)` first and `render(true)` last, with no close; when hiding, `closeApp(options)` and nothing else. |
| `EffectModifiers.TransitionEffect` | module/actor/effect-modifier-control.js:110-116 | After a flip's calls, the popout window is open exactly when the new flag is true. On opening it displays the tracked token; on closing the displayed token is kept. |
| `EffectModifiers.EffectModifierControl.constructor` | module/actor/effect-modifier-control.js:9-11 | Starts hidden, with no token and a fresh popout that has received no calls; the invariant holds. |
| `EffectModifiers.EffectModifierControl.SetShowPopup` | module/actor/effect-modifier-control.js:26-28 | Afterwards the flag equals `b`. Assigning the current value changes neither the popout nor the toolbar. Assigning a different value performs exactly one toggle with no close options. The token never changes. |
| `EffectModifiers.EffectModifierControl.TogglePopup` | module/actor/effect-modifier-control.js:30-38 | Flips the flag, keeps the token, and toggles the `active` class of the first toggle button (a second toggle restores both). Issues the transition calls: `setToken(token)` then `render(true)` when opening, and only `closeApp(options)` when closing. Keeps `Valid()` and the toolbar sync. |
| `EffectModifiers.EffectModifierControl.ToggleEffectModifierPopup` | module/actor/effect-modifier-control.js:110-117 | Issues `setToken(token)` then `render(true)` when the flag is set, otherwise `closeApp(options)` alone. Afterwards the window state equals the flag, and an opened popout displays the tracked token. |
| `EffectModifiers.EffectModifierControl.CreateEffectModifierButton` | module/actor/effect-modifier-control.js:52-72 | Appends a button, active exactly when the popout is shown, only if the setting is enabled and no button exists. The count of buttons stays at most one. A toolbar that had no button ends up in sync with the flag. |
| `EffectModifiers.EffectModifierControl.CreateActiveEffect` | module/actor/effect-modifier-control.js:74-79 | Issues `render(false)` exactly when a token is tracked and the effect's parent id is the id of the actor that token represents at the time of the notification (`actorOf`, read live rather than remembered from when the token was controlled), and otherwise does nothing. The flag and the token are unchanged. |
| `EffectModifiers.EffectModifierControl.UpdateToken` | module/actor/effect-modifier-control.js:81-86 | Issues `render(false)` exactly when the document's canvas object is the same object as the tracked token (identity only, whatever the token now holds), and otherwise does nothing. The flag and the token are unchanged. |
| `EffectModifiers.EffectModifierControl.ControlToken` | module/actor/effect-modifier-control.js:88-100 | Sets the tracked token to `NextTracked` of the old one and pushes it with `setToken`. Schedules one deferred render and keeps the flag. The popout then displays the new tracked token. |
| `EffectModifiers.EffectModifierControl.FireDeferredRender` | module/actor/effect-modifier-control.js:96-99 | The timer's `render(false)` changes neither the flag, nor the token, nor what the popout displays or whether it is open. |
| `EffectModifiers.EffectModifierControl.Close` | module/actor/effect-modifier-control.js:102-104 | Afterwards the popout is hidden. If it was shown, exactly one `closeApp(options)` is issued and the button is toggled. If it was hidden, nothing happens, so a second `close` is a no-op. |
| `EffectModifiers.EffectModifierControl.OnPopoutClosed` | module/actor/effect-modifier-control.js:19 | Sets the flag to false through the setter. When the flag was set, this issues `closeApp` with no options and toggles the button; otherwise nothing happens. |
| `SceneToolbar.CountNamed` | module/actor/effect-modifier-control.js:54-56 | The number of tools with the button's name is zero exactly when no tool has that name. |
| `SceneToolbar.FindTool` | module/actor/effect-modifier-control.js:34-35 | The lookup gives the first tool with that name in document order. It finds nothing exactly when the count is zero. |
| `SceneToolbar.ToggleFirst` | module/actor/effect-modifier-control.js:34-35 | Toggling flips the `active` class of the first tool with that name, keeps every other tool as it was, and keeps the number of tools and every name. |
| `SceneToolbar.ToggleKeepsLookup` | module/actor/effect-modifier-control.js:34-35 | Toggling the button's class keeps the lookup result and the count of buttons. |
| `SceneToolbar.ToggleFlips` | module/actor/effect-modifier-control.js:34-35 | A toggle turns a button class that agreed with the flag into one that agrees with the negated flag. |
| `SceneToolbar.ToggleTwice` | module/actor/effect-modifier-control.js:34-35 | Two toggles restore the toolbar. |
| `SceneToolbar.WithButton` | module/actor/effect-modifier-control.js:56-70 | The toolbar after the insertion decision: the existing tools are kept in place, and one button with the requested class is added at the end exactly when the setting is enabled and no button of that name exists. |
| `SceneToolbar.InsertOnce` | module/actor/effect-modifier-control.js:54-63 | Insertion takes the count from 0 to 1 when enabled, and otherwise leaves it as it was. Existing tools stay as they were. A new button is found first and carries the requested class. A second insertion adds nothing. |
| `SceneToolbar.Toolbar.ToggleActive` | module/actor/effect-modifier-control.js:34-35 | Toggles the `active` class of the first tool with that name. A missing button is a precondition violation. |
| `SceneToolbar.Toolbar.Append` | module/actor/effect-modifier-control.js:69-70 | Appends the button at the end of the token controls' list. |
| `ManeuverHUDButton.Or` | module/actor/maneuver-button.js:81 | JavaScript `\|\|` on strings gives a non-empty left operand, and otherwise the right one; it gives an empty string only when both are empty. |
| `ManeuverHUDButton.ActorImage` | module/actor/maneuver-button.js:106-108 | The synthetic actor image when it is non-empty, otherwise the actor's `data.img`. |
| `ManeuverHUDButton.TokenImages` | module/actor/maneuver-button.js:104-120 | With neither image the placeholder, both are unchanged. With both the placeholder, both results are the placeholder. With only one the placeholder, both results are the other image. A result is the placeholder exactly when both inputs are, and every result is one of the two inputs. |
| `ManeuverHUDButton.TokenTitles` | module/actor/maneuver-button.js:75-89 | In display modes ALWAYS or HOVER, the token title is the token's name. The actor title is then the synthetic actor name when non-empty, otherwise the actor's name. In every other mode the titles are the localised `TKNHAB.ActorImg` and `TKNHAB.TokenImg`. |

## Left out

- Hook registration (`Hooks.on` and `Hooks.once`, module/actor/effect-modifier-control.js:13-19). Each handler is a method the caller invokes. The popout created on `ready` is created by the constructor.
- Setting registration and lookup (`_registerSetting` and `shouldUseEffectModifierPopup`). The setting's value is the `enabled` input of `CreateEffectModifierButton`.
- jQuery and DOM work: building the button's HTML, binding its click handler to `togglePopup()`, and the selector lookups. Only the tool names and `active` classes of the token controls' list are modelled. Tools in other control groups are not.
- The popout's internals (module/actor/effect-modifier-popout.js is not part of this model). Only the calls it receives are recorded.
- A user closing the popout window directly, outside the controller. The trace holds only the controller's commands. `ViewShown` is what the controller has commanded, up to the popout's own close notification.
- The 250 ms timer. It is a pending-render counter, and the point at which the render fires is chosen by the caller.
- `console.log` calls.
- `close` is `async` in the source. It is modelled as a synchronous method, since it awaits nothing.
- `EffectModifiers.EffectModifierControl.TogglePopup`, `SetShowPopup`, `Close` and `OnPopoutClosed` require the toggle button to be present. In the source, `togglePopup` flips the flag before it looks the button up, so with no button it throws with the flag already flipped and the popout untouched. That partial effect is not modelled. The button can be missing when the setting was turned off before the last toolbar render.
- A tracked token without an actor, on which `this.token?.actor.id` would throw. Every token carries an actor id.
- In module/actor/maneuver-button.js: `getInnerHtml`, `createButton`, `prepTokenHUD`, `buttonEventHandler`, `createImagePopup` and `getTokenActor`. These are template rendering, DOM construction, popouts and a lookup in the host's actor collection.
- `ManeuverHUDButton.ActorImage`, `TokenImages` and `TokenTitles` always receive an actor. In the source the actor comes from `game.actors.get(token.actorId)` (module/actor/maneuver-button.js:151), which finds nothing when the token's actor no longer exists. `getTokenImages` then throws at line 108 when the synthetic image is empty, and `getTokenTitles` throws at line 81 in modes ALWAYS or HOVER when the synthetic name is empty. The model returns a value in those cases.
- `ManeuverHUDButton.TokenTitles`: `game.i18n.localize` is the parameter `localize`. Undefined strings are empty strings.
- module/color-character-sheet/color-character-sheet-html.js: form glue over host settings and actor re-rendering, with no decision logic of its own.
