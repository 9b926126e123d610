/**
 * The pure selection logic of the maneuver HUD button: which images and which
 * titles to offer for a token and the actor it stands for.
 *
 * Strings the host may leave undefined are modelled as strings that may be empty;
 * the empty string plays the part of a missing value in the source's `a || b`.
 */
module ManeuverHUDButton {

  /** The placeholder image the host gives tokens and actors without art. */
  const Mystery := "icons/svg/mystery-man.svg"

  /** The host's token display modes that show the name (`HOVER`, `ALWAYS`). */
  const DisplayHover := 30
  const DisplayAlways := 50

  /** The synthetic actor data a token carries to override its actor's name and image. */
  datatype ActorData = ActorData(name: string, img: string)

  /** The token fields read here; `displayName` is one of the host's display modes. */
  datatype TokenData = TokenData(name: string, img: string, displayName: int, actorData: ActorData)

  /** The actor fields read here: its name and its `data.img`. */
  datatype Actor = Actor(name: string, img: string)

  /** An `{ actor, token }` result pair. */
  datatype Pair = Pair(actor: string, token: string)

  /** JavaScript `a || b` on strings: `a` unless it is empty. */
  function Or(a: string, b: string): (r: string)
    ensures a != "" ==> r == a
    ensures a == "" ==> r == b
    ensures r == "" <==> a == "" && b == ""
  {
    if a != "" then a else b
  }

  /** The actor image: the token's synthetic actor image, falling back to the actor's own. */
  function ActorImage(token: TokenData, actor: Actor): (img: string)
    ensures token.actorData.img != "" ==> img == token.actorData.img
    ensures token.actorData.img == "" ==> img == actor.img
  {
    Or(token.actorData.img, actor.img)
  }

  /**
   * The images to offer: when exactly one of the actor and token images is the
   * placeholder, it is replaced by the other one.
   */
  function TokenImages(token: TokenData, actor: Actor): (r: Pair)
    ensures var a, t := ActorImage(token, actor), token.img;
      && (a != Mystery && t != Mystery ==> r == Pair(a, t))
      && (a == Mystery && t == Mystery ==> r == Pair(Mystery, Mystery))
      && (a == Mystery && t != Mystery ==> r == Pair(t, t))
      && (a != Mystery && t == Mystery ==> r == Pair(a, a))
    // the placeholder survives only when there is no other image to use
    ensures r.actor == Mystery <==> ActorImage(token, actor) == Mystery && token.img == Mystery
    ensures r.token == Mystery <==> ActorImage(token, actor) == Mystery && token.img == Mystery
    // every image offered is one of the two found
    ensures r.actor in {ActorImage(token, actor), token.img} && r.token in {ActorImage(token, actor), token.img}
  {
    var actorImg := ActorImage(token, actor);
    var tokenImg := token.img;
    var am := actorImg == Mystery;
    var tm := tokenImg == Mystery;
    if !(am && tm) then
      var actorImg' := if am then tokenImg else actorImg;
      var tokenImg' := if tm then actorImg' else tokenImg;
      Pair(actorImg', tokenImg')
    else
      Pair(actorImg, tokenImg)
  }

  /**
   * The titles to offer: the names when the token's display mode shows its name
   * (always or on hover), otherwise the localised generic labels, so that a hidden
   * name is never revealed.
   */
  function TokenTitles(token: TokenData, actor: Actor, localize: string -> string): (r: Pair)
    ensures token.displayName == DisplayAlways || token.displayName == DisplayHover ==>
      r.token == token.name
      && (token.actorData.name != "" ==> r.actor == token.actorData.name)
      && (token.actorData.name == "" ==> r.actor == actor.name)
    ensures token.displayName != DisplayAlways && token.displayName != DisplayHover ==>
      r == Pair(localize("TKNHAB.ActorImg"), localize("TKNHAB.TokenImg"))
  {
    if token.displayName == DisplayAlways || token.displayName == DisplayHover then
      Pair(Or(token.actorData.name, actor.name), token.name)
    else
      Pair(localize("TKNHAB.ActorImg"), localize("TKNHAB.TokenImg"))
  }
}
