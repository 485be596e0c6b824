/** The record shapes of the dashboard's dataset and of the chat transcript.
    A TypeScript `number | null` becomes an `Option<int>`: every figure in the
    dataset is a whole number, far below 2^53, so the floating-point numbers of
    the source hold them exactly. */
module Types {

  datatype Option<+T> = None | Some(value: T)

  /** `x || 0` on a `number | null`: an absent figure reads as 0. */
  function OrZero(x: Option<int>): int
  {
    match x
    case None => 0
    case Some(v) => v
  }

  /** One point of a production series; `None` is a year without a figure. */
  datatype YearValue = YearValue(year: int, value: Option<int>)

  datatype SalientProductionItem = SalientProductionItem(name: string, data: seq<YearValue>)

  datatype SalientImportItem = SalientImportItem(year: int, compounds: Option<int>, metals: Option<int>)

  /** A price row is a JavaScript object: its own string keys in insertion
      order, each with its value. `year` is one of the keys. */
  datatype Field = Field(key: string, value: Option<int>)
  type SalientPriceItem = seq<Field>

  /** `Object.keys`: for an object whose keys are all "plain" (see
      `PlainKeys`), the keys in insertion order, none listed twice. */
  function ObjectKeys(o: seq<Field>): (keys: seq<string>)
    requires PlainKeys(o)
    ensures |keys| == |o|
    ensures forall i, j :: 0 <= i < j < |keys| ==> keys[i] != keys[j]
  {
    seq(|o|, i requires 0 <= i < |o| => o[i].key)
  }

  /** `o[k]` for an own property: the value of the field keyed `k`, or
      `None` when the object has no own property `k`. */
  function Get(o: seq<Field>, k: string): Option<Option<int>>
  {
    if o == [] then None
    else if o[0].key == k then Some(o[0].value)
    else Get(o[1..], k)
  }

  /** The keys `Object.keys` lists are exactly the own properties that read
      back: the `i`-th key reads the `i`-th field's value, and the object has
      no other own property. */
  lemma {:induction false} ObjectKeysGet(o: seq<Field>)
    requires PlainKeys(o)
    ensures forall i :: 0 <= i < |o| ==> Get(o, ObjectKeys(o)[i]) == Some(o[i].value)
    ensures forall k :: k !in ObjectKeys(o) ==> Get(o, k) == None
  {
    if o != [] {
      var keys := ObjectKeys(o);
      assert PlainKeys(o[1..]);
      ObjectKeysGet(o[1..]);
      var rest := ObjectKeys(o[1..]);
      assert keys == [o[0].key] + rest;
      forall i | 0 < i < |o| ensures Get(o, keys[i]) == Some(o[i].value) {
        assert keys[i] == o[i].key == rest[i - 1] && o[i] == o[1..][i - 1];
      }
    }
  }

  /** A key JavaScript would list first, in numeric order, is an array index:
      a string of decimal digits. A key that is empty or starts with anything
      else keeps its insertion position. */
  predicate NotArrayIndex(k: string)
  {
    k == [] || !('0' <= k[0] <= '9')
  }

  /** An object literal whose keys are pairwise distinct and none of them an
      array index: its own keys enumerate in the order they were written. */
  predicate PlainKeys(o: seq<Field>)
  {
    && (forall i, j :: 0 <= i < j < |o| ==> o[i].key != o[j].key)
    && (forall i :: 0 <= i < |o| ==> NotArrayIndex(o[i].key))
  }

  datatype NameValuePercentage = NameValuePercentage(name: string, value: int)

  datatype TariffItem = TariffItem(item: string, number: string, relation: string)

  datatype WorldMineProductionItem = WorldMineProductionItem(country: string, y2023: Option<int>, y2024: Option<int>)

  datatype WorldReserveItem = WorldReserveItem(country: string, reserves: Option<int>)

  datatype Role = User | Model

  datatype ChatMessage = ChatMessage(role: Role, text: string)

  /** How a role prints inside a template literal. */
  function RoleName(r: Role): (name: string)
    ensures name == "user" <==> r == User
    ensures name == "model" <==> r == Model
  {
    match r
    case User => "user"
    case Model => "model"
  }
}
