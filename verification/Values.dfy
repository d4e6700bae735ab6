// The JSON-like values that pass between agents, actions, validators and artifacts,
// and the Option and Result types used in place of None and exceptions.
module Values {
  datatype Option<+T> = None | Some(value: T)

  datatype Result<+T, +E> = Ok(value: T) | Err(error: E)

  datatype Json =
    | Null
    | Bool(b: bool)
    | Int(n: int)
    | Str(s: string)
    | Arr(items: seq<Json>)
    | Obj(fields: map<string, Json>)
  {
    // dict.get(key): an absent key and an explicit None read the same.
    function Get(key: string): Json
    {
      if Obj? && key in fields then fields[key] else Null
    }

    // dict.get(key, default): the default only replaces an absent key.
    function GetOr(key: string, default: Json): Json
    {
      if Obj? && key in fields then fields[key] else default
    }

    predicate Has(key: string)
    {
      Obj? && key in fields
    }

    // Python truthiness.
    predicate Truthy()
    {
      match this
      case Null => false
      case Bool(b) => b
      case Int(n) => n != 0
      case Str(s) => s != ""
      case Arr(items) => items != []
      case Obj(fields) => fields != map[]
    }

    // dict[key] = value on a dictionary.
    function Put(key: string, value: Json): Json
      requires Obj?
    {
      Obj(fields[key := value])
    }
  }

  function OptStr(o: Option<string>): Json
  {
    match o
    case None => Null
    case Some(s) => Str(s)
  }

  // isinstance(value, list) and every element is a string.
  predicate StringList(j: Json)
  {
    j.Arr? && forall i | 0 <= i < |j.items| :: j.items[i].Str?
  }

  function Strings(items: seq<Json>): (texts: seq<string>)
    requires StringList(Arr(items))
    ensures |texts| == |items|
    ensures forall i | 0 <= i < |items| :: items[i] == Str(texts[i])
  {
    seq(|items|, i requires 0 <= i < |items| => items[i].s)
  }

  function StrItems(texts: seq<string>): (items: seq<Json>)
    ensures |items| == |texts|
    ensures forall i | 0 <= i < |texts| :: items[i] == Str(texts[i])
  {
    seq(|texts|, i requires 0 <= i < |texts| => Str(texts[i]))
  }

  lemma StringsOfStrItems(texts: seq<string>)
    ensures StringList(Arr(StrItems(texts)))
    ensures Strings(StrItems(texts)) == texts
  {
  }
}
