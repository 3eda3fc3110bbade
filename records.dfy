/**
 * The records the contract parser receives from the procurement GraphQL
 * service, and the replies the service (or the transport underneath it)
 * can give to one request.
 *
 * Every key the queries select is present in a reply, possibly as JSON
 * null, so a text field is an `Option<string>` with `None` for null.
 */
module Records {

  datatype Option<+T> = None | Some(value: T)

  /** A JSON amount as it arrives: null, a number, a boolean (an int in
      Python), a string, or any other JSON value (a list or an object). */
  datatype Amount = Null | Num(x: real) | Flag(b: bool) | Str(s: string) | Other

  /** A nested reference such as `Supplier { nameRu }`; the reference itself
      may be null, which is the `Option` around it in `Contract`. */
  datatype NamedRef = NamedRef(nameRu: Option<string>)

  /** One `ContractUnits` entry. */
  datatype Unit = Unit(
    plnPointId: Option<int>,
    itemPrice: Amount,
    quantity: Amount,
    totalSum: Amount)

  /** One `Contract` entity; `id` is the pagination cursor. */
  datatype Contract = Contract(
    id: int,
    contractNumberSys: Option<string>,
    trdBuyNumberAnno: Option<string>,
    trdBuyNameRu: Option<string>,
    descriptionRu: Option<string>,
    finYear: Option<int>,
    contractSum: Amount,
    signDate: Option<string>,
    supplier: Option<NamedRef>,
    contractType: Option<NamedRef>,
    contractStatus: Option<NamedRef>,
    tradeMethod: Option<NamedRef>,
    units: seq<Unit>)

  /** One `Plans` entity (a budget-plan line). */
  datatype Plan = Plan(
    id: int,
    nameRu: Option<string>,
    count: Amount,
    price: Amount,
    amount: Amount,
    extraDescRu: Option<string>)

  /** The JSON body of an HTTP reply: an `errors` list, a `data` that is
      not an object (so reading the entity list raises), or the entity list
      (a missing or null list reads as empty). */
  datatype Body<T> = ErrorList | NullData | Entities(items: seq<T>)

  /** What one `requests.post` gives back: a timeout, a connection failure,
      any other request exception (an invalid JSON body among them), or an
      HTTP status with its body. */
  datatype Reply<T> =
    | TimedOut
    | ConnectionFailed
    | RequestFailed
    | Http(status: int, body: Body<T>)

  /** Python truthiness of a `plnPointId`: null and 0 are false. */
  predicate Truthy(id: Option<int>)
  {
    id.Some? && id.value != 0
  }

  /** `unit.plnPointId` is truthy and is a key of the plan table. */
  predicate Resolves(u: Unit, plans: map<int, Plan>)
  {
    Truthy(u.plnPointId) && u.plnPointId.value in plans
  }

  function Last<T>(s: seq<T>): T
    requires s != []
  {
    s[|s| - 1]
  }

  lemma ConcatAssoc<T>(a: seq<T>, b: seq<T>, c: seq<T>)
    ensures a + (b + c) == (a + b) + c
  {
  }

  /** The concatenation of a sequence of sequences, in order. */
  function Flatten<T>(ss: seq<seq<T>>): seq<T>
  {
    if ss == [] then [] else Flatten(ss[..|ss| - 1]) + Last(ss)
  }

  lemma {:induction false} FlattenAppend<T>(ss: seq<seq<T>>, s: seq<T>)
    ensures Flatten(ss + [s]) == Flatten(ss) + s
  {
    assert (ss + [s])[..|ss|] == ss;
  }

  lemma {:induction false} FlattenConcat<T>(a: seq<seq<T>>, b: seq<seq<T>>)
    ensures Flatten(a + b) == Flatten(a) + Flatten(b)
    decreases |b|
  {
    if b == [] {
      assert a + b == a;
    } else {
      var b' := b[..|b| - 1];
      assert a + b == (a + b') + [Last(b)];
      FlattenAppend(a + b', Last(b));
      FlattenConcat(a, b');
      FlattenAppend(b', Last(b));
      assert b == b' + [Last(b)];
    }
  }

  lemma {:induction false} FlattenCons<T>(s: seq<T>, ss: seq<seq<T>>)
    ensures Flatten([s] + ss) == s + Flatten(ss)
  {
    FlattenConcat([s], ss);
    assert Flatten([s]) == Flatten([]) + s by { FlattenAppend([], s); }
  }
}
