/** Construction of players from a type tag. */
module PigFactory {
  import opened PigPlayer

  datatype Option<T> = None | Some(value: T)

  datatype Result<T, E> = Success(value: T) | Failure(error: E)

  /** The factory's rejection of an unknown type tag. */
  datatype FactoryError = InvalidPlayerType(tag: string)

  /** The kind a type tag names, if any: only "human" and "computer", exactly. */
  function KindOf(tag: string): (k: Option<Kind>)
    ensures k.Some? <==> tag == "human" || tag == "computer"
  {
    if tag == "human" then Some(Human)
    else if tag == "computer" then Some(Computer)
    else None
  }

  function TagOf(k: Kind): string {
    match k
    case Human => "human"
    case Computer => "computer"
  }

  /** Tags and kinds correspond one to one. */
  lemma TagRoundTrip(k: Kind, tag: string)
    ensures KindOf(TagOf(k)) == Some(k)
    ensures KindOf(tag) == Some(k) ==> TagOf(k) == tag
  {
  }

  method CreatePlayer(playerType: string, name: string) returns (r: Result<Player, FactoryError>)
    ensures r.Success? <==> KindOf(playerType).Some?
    ensures r.Success? ==> fresh(r.value) && r.value.kind == KindOf(playerType).value
    ensures r.Success? ==> r.value.name == name && r.value.State() == Initial(name)
    ensures r.Failure? ==> r.error == InvalidPlayerType(playerType)
  {
    if playerType == "human" {
      var p := new Player(name, Human);
      r := Success(p);
    } else if playerType == "computer" {
      var p := new Player(name, Computer);
      r := Success(p);
    } else {
      r := Failure(InvalidPlayerType(playerType));
    }
  }
}
