/** The records of the application (User, Brand, Coupon) and an Option type
    standing for TypeScript's `T | null` / `T | undefined`. */
module Types {
  datatype Option<+T> = None | Some(value: T)

  /** A registered account. `password` is kept in plain text, as in the mock directory. */
  datatype User = User(
    id: string,
    name: string,
    email: string,
    password: string,
    savedCoupons: seq<string>,
    createdAt: string)

  datatype Brand = Brand(
    id: string,
    name: string,
    logo: string,
    description: string,
    category: string,
    featured: bool,
    discountPercentage: int)

  /** `validUntil` and `createdAt` are date strings the model never interprets. */
  datatype Coupon = Coupon(
    id: string,
    brandId: string,
    code: string,
    description: string,
    discountPercentage: int,
    validUntil: string,
    terms: string,
    createdAt: string)
}
