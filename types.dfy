/** The catalogue, cart, user and order records. Prices are exact reals. */
module Types {
  import opened Wrappers

  datatype Rating = Rating(rate: real, count: int)

  datatype Product = Product(
    id: int,
    title: string,
    price: real,
    description: string,
    category: string,
    image: string,
    rating: Rating)

  /** A cart line, holding the snapshot of the product taken when the line was created. */
  datatype CartItem = CartItem(product: Product, quantity: int)

  datatype Name = Name(firstname: string, lastname: string)

  datatype Address = Address(city: string, street: string, number: int, zipcode: string)

  datatype User = User(
    id: int,
    email: string,
    username: string,
    name: Name,
    address: Option<Address>,
    phone: Option<string>)

  datatype OrderStatus = Pending | Processing | Shipped | Delivered

  datatype ShippingAddress = ShippingAddress(
    fullName: string,
    address: string,
    city: string,
    zipcode: string,
    country: string)

  /** An order record. `userId` is optional because checkout never sets it. */
  datatype Order = Order(
    id: string,
    userId: Option<int>,
    items: seq<CartItem>,
    total: real,
    status: OrderStatus,
    shippingAddress: ShippingAddress,
    createdAt: string)

  /** The `{ username, password }` pair sent to the login endpoint. */
  datatype LoginCredentials = LoginCredentials(username: string, password: string)
}
