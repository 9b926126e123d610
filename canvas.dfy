/**
 * The host documents the effect-modifier controller reacts to, reduced to the
 * identities it compares.
 */
module Canvas {
  import opened Wrappers

  type Id = string

  /**
   * A token placed on the canvas, reduced to its object identity: two `Token` values
   * are equal exactly when they are the same canvas object. What the token holds
   * (in particular the actor it represents) is host state that may change while
   * the controller tracks it, so it is not part of this value; a handler that
   * reads it receives it as an input.
   */
  datatype Token = Token(id: Id)

  /** A token document; `placed` is its canvas object, absent when the token is not drawn. */
  datatype TokenDocument = TokenDocument(placed: Option<Token>)

  /** An active effect; `parentId` is the id of the document (actor or item) that owns it. */
  datatype ActiveEffect = ActiveEffect(parentId: Id)
}
