/** The menu data the front end loads from menu.json. */
module Menu {

  datatype Option<+T> = None | Some(value: T)

  /** A dish of the menu. The price and the nutrition values are kept as the
      text they render to; `nutrition` lists the (label, value) pairs in the
      order the JSON object enumerates them. */
  datatype MenuItem = MenuItem(
    name: string,
    price: string,
    description: string,
    ingredients: seq<string>,
    nutrition: seq<(string, string)>,
    imageUrl: string,
    modelUrl: Option<string>)

  /** JavaScript truthiness of `item.model_url`: present and not the empty string. */
  predicate HasModel(item: MenuItem) {
    item.modelUrl.Some? && item.modelUrl.value != ""
  }

  /** One key of the menu object with the items listed under it, in order. */
  datatype Category = Category(name: string, items: seq<MenuItem>)

  /** The whole menu: its categories in the order `for…in` visits them. */
  type Catalog = seq<Category>
}
