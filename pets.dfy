/**
 * The pet record shared by the catalog and the cart.
 *
 * paw-mate keeps `age` and `price` as text on some paths and as numbers on
 * others; here they have one numeric type each: `age` a whole number and
 * `price` an exact real (no floating point).
 */
module Pets {

  datatype Pet = Pet(
    id: string,
    petName: string,
    breed: string,
    age: int,
    price: real,
    image: string)
}
