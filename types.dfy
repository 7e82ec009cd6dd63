/** Record shapes of the storefront (types/index.ts). Prices are integer cents. */
module Types {

  datatype Option<+T> = None | Some(value: T)

  /** Customer rating of a product; `rate` is kept as an integer in hundredths. */
  datatype Rating = Rating(rate: int, count: int)

  /** A catalog product as the remote catalog returns it. */
  datatype Product = Product(
    id: int,
    title: string,
    price: int,
    description: string,
    category: string,
    image: string,
    rating: Rating)

  /** One line of the shopping cart. */
  datatype CartItem = CartItem(id: int, title: string, price: int, image: string, quantity: int)
}
