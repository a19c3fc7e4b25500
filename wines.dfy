/** The wine entity (model/Wine.java): its fields, the validation constraints its
    annotations declare, its two constructors, and the wine table's
    lookup by primary key. */
module Wines {
  import opened Common

  /** Prices are exact decimals with two fraction digits; the model keeps them as integer
      hundredths. Alcohol content is kept in hundredths of a percent. The colour, flavour,
      type and grape references are represented by their names. */
  datatype Wine = Wine(
    id: int,
    name: string,
    price: int,
    imagePath: string,
    description: Option<string>,
    pairing: Option<string>,
    alcoholContent: Option<int>,
    volume: int,
    servingTemperature: Option<string>,
    quantity: int,
    colorName: Option<string>,
    flavourName: Option<string>,
    typeName: Option<string>,
    grapeName: Option<string>)

  /** The alcohol-content bounds `0.0 ..= 100.0` with at most three integer digits and at
      most one significant fraction digit, tested on the value held in hundredths. The
      written scale of the decimal is not represented, so a value written with a trailing
      zero (12.50) is judged by its value alone. */
  predicate AlcoholValid(a: Option<int>) {
    a.None? || (0 <= a.value <= 10000 && a.value % 10 == 0 && a.value / 100 < 1000)
  }

  /** Every constraint the entity declares: the bean-validation annotations and the
      not-null join columns for colour and flavour. The `@NotNull` constraints on name,
      price, image path, volume and stock hold by the field types, which have no null. */
  predicate Valid(w: Wine) {
    && |w.name| <= 255
    && w.price >= 0
    && AlcoholValid(w.alcoholContent)
    && w.volume >= 187
    && (w.servingTemperature.None? || |w.servingTemperature.value| <= 50)
    && w.quantity >= 0
    && w.colorName.Some?
    && w.flavourName.Some?
  }

  /** The seven-argument constructor. The primary key is a primitive `int`, so an unsaved
      wine has id 0. */
  function NewWine(name: string, price: int, imagePath: string, volume: int, quantity: int,
                   colorName: Option<string>, flavourName: Option<string>): (w: Wine)
    ensures w.id == 0 && w.name == name && w.price == price && w.imagePath == imagePath
    ensures w.volume == volume && w.quantity == quantity
    ensures w.colorName == colorName && w.flavourName == flavourName
    ensures w.description.None? && w.pairing.None? && w.alcoholContent.None?
    ensures w.servingTemperature.None? && w.typeName.None? && w.grapeName.None?
    ensures Valid(w) <==> (|name| <= 255 && price >= 0 && volume >= 187 && quantity >= 0
                           && colorName.Some? && flavourName.Some?)
  {
    Wine(0, name, price, imagePath, None, None, None, volume, None, quantity,
         colorName, flavourName, None, None)
  }

  /** The thirteen-argument constructor: delegates to the seven-argument one, then sets the
      six optional fields. */
  function NewFullWine(name: string, price: int, imagePath: string, description: Option<string>,
                       pairing: Option<string>, alcoholContent: Option<int>, volume: int,
                       servingTemperature: Option<string>, quantity: int,
                       colorName: Option<string>, flavourName: Option<string>,
                       typeName: Option<string>, grapeName: Option<string>): (w: Wine)
    ensures w.id == 0 && w.name == name && w.price == price && w.imagePath == imagePath
    ensures w.description == description && w.pairing == pairing
    ensures w.alcoholContent == alcoholContent && w.volume == volume
    ensures w.servingTemperature == servingTemperature && w.quantity == quantity
    ensures w.colorName == colorName && w.flavourName == flavourName
    ensures w.typeName == typeName && w.grapeName == grapeName
  {
    NewWine(name, price, imagePath, volume, quantity, colorName, flavourName).(
      description := description, pairing := pairing, alcoholContent := alcoholContent,
      servingTemperature := servingTemperature, typeName := typeName, grapeName := grapeName)
  }

  /** With every optional argument absent, the full constructor builds the same wine as
      the short one. */
  lemma FullConstructorExtendsShort(name: string, price: int, imagePath: string, volume: int,
                                    quantity: int, colorName: Option<string>,
                                    flavourName: Option<string>)
    ensures NewFullWine(name, price, imagePath, None, None, None, volume, None, quantity,
                        colorName, flavourName, None, None)
         == NewWine(name, price, imagePath, volume, quantity, colorName, flavourName)
  {
  }

  /** The wine table's primary keys are distinct. */
  predicate UniqueIds(wines: seq<Wine>) {
    forall i, j :: 0 <= i < |wines| && 0 <= j < |wines| && wines[i].id == wines[j].id ==> i == j
  }

  /** `findById` on the wine table. */
  function FindById(wines: seq<Wine>, id: int): (r: Option<Wine>)
    ensures r.Some? ==> r.value in wines && r.value.id == id
    ensures r.None? <==> forall w :: w in wines ==> w.id != id
  {
    if wines == [] then None
    else if wines[0].id == id then Some(wines[0])
    else FindById(wines[1..], id)
  }

  /** With distinct keys, the lookup returns the one wine carrying that id. */
  lemma {:induction false} FindByIdUnique(wines: seq<Wine>, i: int)
    requires UniqueIds(wines) && 0 <= i < |wines|
    ensures FindById(wines, wines[i].id) == Some(wines[i])
  {
    if i > 0 && wines[0].id != wines[i].id {
      assert UniqueIds(wines[1..]) by {
        forall a, b | 0 <= a < |wines| - 1 && 0 <= b < |wines| - 1 && wines[1..][a].id == wines[1..][b].id
          ensures a == b
        {
          assert wines[a + 1].id == wines[b + 1].id;
        }
      }
      FindByIdUnique(wines[1..], i - 1);
    }
  }
}
