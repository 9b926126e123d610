/**
 * The effect-modifier popout as the controller sees it: an opaque window that is
 * told which token to show, asked to render and asked to close. Its internals are
 * not part of this model; what it receives is recorded as a trace of calls.
 */
module EffectModifierPopout {
  import opened Wrappers
  import opened Canvas

  /** The options object `close` passes through to `closeApp`, unread; `Undefined` when none is given. */
  datatype CloseOptions = Undefined | Given(handle: nat)

  /** One call the controller makes on the popout. */
  datatype UiCall =
    | SetTokenCall(token: Option<Token>)
    | RenderCall(force: bool)
    | CloseAppCall(options: CloseOptions)

  /**
   * The token the popout shows after `calls`: the argument of the last `setToken`,
   * or none, as the popout is created without a token.
   */
  function DisplayedToken(calls: seq<UiCall>): Option<Token>
  {
    if calls == [] then None
    else if calls[|calls| - 1].SetTokenCall? then calls[|calls| - 1].token
    else DisplayedToken(calls[..|calls| - 1])
  }

  /**
   * Whether the popout window is open after `calls`: `render(true)` opens it,
   * `closeApp` closes it, a non-forcing render only refreshes an open window.
   */
  function ViewShown(calls: seq<UiCall>): bool
  {
    if calls == [] then false
    else match calls[|calls| - 1]
      case RenderCall(force) => force || ViewShown(calls[..|calls| - 1])
      case CloseAppCall(_) => false
      case SetTokenCall(_) => ViewShown(calls[..|calls| - 1])
  }

  /** What one more call does to the displayed token and to the window. */
  lemma {:induction false} AfterCall(calls: seq<UiCall>, c: UiCall)
    ensures DisplayedToken(calls + [c]) == if c.SetTokenCall? then c.token else DisplayedToken(calls)
    ensures ViewShown(calls + [c]) == match c
      case RenderCall(force) => force || ViewShown(calls)
      case CloseAppCall(_) => false
      case SetTokenCall(_) => ViewShown(calls)
  {
    assert (calls + [c])[..|calls|] == calls;
  }

  /** The popout, with the calls it has received so far. */
  class Popout {
    var calls: seq<UiCall>

    constructor ()
      ensures calls == []
    {
      calls := [];
    }

    method SetToken(token: Option<Token>)
      modifies this
      ensures calls == old(calls) + [SetTokenCall(token)]
    {
      calls := calls + [SetTokenCall(token)];
    }

    method Render(force: bool)
      modifies this
      ensures calls == old(calls) + [RenderCall(force)]
    {
      calls := calls + [RenderCall(force)];
    }

    method CloseApp(options: CloseOptions)
      modifies this
      ensures calls == old(calls) + [CloseAppCall(options)]
    {
      calls := calls + [CloseAppCall(options)];
    }
  }
}
