/**
 * The records of the storefront (`src/types/index.ts`). Categories and tags are
 * plain strings: the code compares them with `===`, and a category read from
 * the page URL is cast to `Category` without any check.
 */
module Types {
  import opened Options

  type Category = string
  type ProductTag = string

  /** One purchasable size of a product, with its list price. */
  datatype Weight = Weight(value: string, price: real)

  /** A catalogue entry; `discount` is a percentage taken off every weight's price. */
  datatype Product = Product(
    id: string,
    name: string,
    description: string,
    image: string,
    weights: seq<Weight>,
    rating: real,
    reviewCount: int,
    prepTime: string,
    discount: real,
    tags: seq<ProductTag>,
    category: Category,
    ingredients: seq<string>,
    cookingSteps: seq<string>,
    isVeg: bool)

  /** A cart line: the product, the weight chosen and how many. */
  datatype CartItem = CartItem(product: Product, selectedWeight: Weight, quantity: int)

  /** The whole cart, as held in memory and as written to storage. */
  datatype CartState = CartState(items: seq<CartItem>, promoCode: Option<string>, promoDiscount: real)

  /** The delivery details collected on the first checkout step. */
  datatype CustomerDetails = CustomerDetails(
    name: string,
    phone: string,
    email: string,
    address: string,
    city: string,
    pincode: string,
    cookingNote: string)

  /** The payment fields of every method, held together in one record. */
  datatype PaymentDetails = PaymentDetails(
    upiId: string,
    cardNumber: string,
    cardExpiry: string,
    cardCvv: string,
    cardName: string,
    selectedBank: string)

  datatype DietFilter = All | Veg | NonVeg
}
