/** The record shapes of type/type.ts that the modelled components exchange.
    Prices are integer cents throughout (8.50 is 850). */
module Types {

  datatype Option<T> = None | Some(value: T)

  /** A product or line id, `string | number`: compared with `===`, so the
      number 1 and the string "1" are different ids. */
  datatype Id = NumId(n: int) | StrId(s: string)

  /** A cart line. `quantity` is kept at 1 or more by the cart's operations. */
  datatype CartItem = CartItem(
    id: Id,
    name: string,
    model: Option<string>,
    price: int,
    quantity: int,
    images: Option<seq<string>>,
    category: Option<string>)

  /** `Omit<CartItem, 'quantity'>`: what `addToCart` receives. */
  datatype NewCartItem = NewCartItem(
    id: Id,
    name: string,
    model: Option<string>,
    price: int,
    images: Option<seq<string>>,
    category: Option<string>)

  datatype WishlistItem = WishlistItem(
    id: Id,
    name: string,
    model: string,
    price: int,
    images: Option<seq<string>>,
    category: Option<string>,
    brand: string,
    addedAt: string)

  /** `views` / `viewImages`: an empty string is a missing (falsy) picture. */
  datatype ViewImages = ViewImages(front: string, side: string, back: string)

  /** A catalogue product. `battery` and `screenSize` are the optional
      `specifications.battery` and `specifications.screen_size`; `rating` is in
      tenths of a star; `createdAt` is the already-parsed creation time in
      milliseconds. An empty `details` string is a missing one. */
  datatype Product = Product(
    id: int,
    category: string,
    brand: string,
    model: string,
    price: int,
    images: seq<string>,
    details: string,
    viewImages: Option<ViewImages>,
    views: Option<ViewImages>,
    value: Option<string>,
    battery: Option<string>,
    screenSize: Option<string>,
    rating: Option<int>,
    createdAt: Option<int>)

  datatype Label = Home | Office | Other

  /** `label` is written `kind` (a keyword here). */
  datatype Address = Address(id: string, kind: Label, name: string, address: string, phone: string)

  /** The address being entered or edited. */
  datatype AddressForm = AddressForm(name: string, kind: Label, address: string, phone: string)

  datatype PaymentFormData = PaymentFormData(
    cardholderName: string,
    cardNumber: string,
    expDate: string,
    cvv: string,
    sameAsBilling: bool)

  /** What a local-storage slot yields at start-up: nothing stored (null or
      ""), text that is not JSON, JSON that is not an array, or an array. */
  datatype Snapshot<T> = Absent | Unparseable | NotAnArray | Items(items: seq<T>)

  /** What `await fetchProducts()` yields: the products, or the message of
      the error it throws. */
  datatype Fetch = Fetched(data: seq<Product>) | FetchFailed(message: string)
}

/** The canonical lists of constants/data.tsx. */
module Catalog {

  /** `brandLists`: the order in which brand facets are offered. */
  const BrandList: seq<string> := ["Apple", "Samsung", "Xiaomi", "OnePlus", "Oppo", "Huawei", "Google",
    "Dell", "HP", "Lenovo", "Asus", "Acer", "MSI", "Sony", "Bose", "Sennheiser", "Beats",
    "Audio-Technica", "JBL", "Jabra"]

  /** `batteryList`. */
  const BatteryList: seq<string> := ["3200 mAh", "4000 mAh", "4500 mAh", "5000 mAh", "4880 mAh",
    "5400 mAh", "4815 mAh", "4700 mAh", "3100 mAh", "4400 mAh"]

  /** `screenSize`. */
  const ScreenSizeList: seq<string> := ["5.4 inches", "6.1 inches", "6.3 inches", "6.5 inches",
    "6.7 inches", "6.9 inches"]

  /** An entry of `categoriesData` (its icon is presentation only). */
  datatype CategoryEntry = CategoryEntry(title: string, href: string)

  const CategoriesData: seq<CategoryEntry> := [
    CategoryEntry("Phone", "/category/phone"),
    CategoryEntry("Smart Device", "/category/Smart Device"),
    CategoryEntry("Cameras", "/category/Cameras"),
    CategoryEntry("Headphones", "/category/Headphones"),
    CategoryEntry("Computer", "/category/computer"),
    CategoryEntry("Consoles", "/category/Consoles"),
    CategoryEntry("Earpod", "/category/Earpod"),
    CategoryEntry("VR", "/category/VR"),
    CategoryEntry("Keyboard", "/category/Keyboard"),
    CategoryEntry("Mouse", "/category/Mouse")]
}
