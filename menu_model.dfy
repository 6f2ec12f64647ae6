/**
 The menu-item schema (server/models/Menu.js): a required trimmed name, a
 non-negative price, a category from a fixed enumeration, an optional trimmed
 description and defaults for the image and the availability flag.
 Prices are whole rupees.
 */
module MenuModel {
  import opened Common

  datatype Category = Appetizer | Main | Dessert | Beverage

  /** The string the schema stores for each category. */
  function CategoryName(c: Category): string {
    match c
    case Appetizer => "appetizer"
    case Main => "main"
    case Dessert => "dessert"
    case Beverage => "beverage"
  }

  /** The enum validator: a string is accepted exactly when it names a category. */
  function ParseCategory(s: string): (r: Option<Category>)
    ensures r.Some? ==> CategoryName(r.value) == s
    ensures forall c :: CategoryName(c) == s ==> r == Some(c)
  {
    if s == "appetizer" then Some(Appetizer)
    else if s == "main" then Some(Main)
    else if s == "dessert" then Some(Dessert)
    else if s == "beverage" then Some(Beverage)
    else None
  }

  /** The `trim: true` setter, i.e. `String.prototype.trim`. */
  function Trim(s: string): (r: string)
    ensures |r| <= |s|
  {
    TrimEnd(TrimStart(s))
  }

  /** No white space at either end. */
  predicate IsTrimmed(s: string) {
    s == [] || (!IsJsWhitespace(s[0]) && !IsJsWhitespace(s[|s| - 1]))
  }

  /** The trimmed string has no white space at its ends. */
  lemma TrimIsTrimmed(s: string)
    ensures IsTrimmed(Trim(s))
  {
    var t := TrimStart(s);
    var r := TrimEnd(t);
    if r != [] {
      assert r[0] == t[0];
    }
  }

  /** Trimming keeps a run of the string's own characters: the characters of
      the result are those of the input, starting after the leading white space. */
  lemma TrimKeepsInner(s: string)
    ensures forall k :: 0 <= k < |Trim(s)| ==> Trim(s)[k] == s[|s| - |TrimStart(s)| + k]
  {
    TrimStartIsSuffix(s);
  }

  /** Trimming an already trimmed string changes nothing. */
  lemma TrimIdempotent(s: string)
    ensures Trim(Trim(s)) == Trim(s)
  {
    TrimIsTrimmed(s);
    TrimOfTrimmed(Trim(s));
  }

  /** A string without white space at its ends is its own trim. */
  lemma TrimOfTrimmed(s: string)
    requires IsTrimmed(s)
    ensures Trim(s) == s
  {
    assert TrimStart(s) == s;
  }

  datatype MenuItem = MenuItem(
    id: string,
    name: string,
    price: int,
    category: Category,
    description: Option<string>,
    image: string,
    isAvailable: bool)

  /** The fields of a create request for a menu item; `None` is a field left out. */
  datatype MenuInput = MenuInput(
    name: Option<string>,
    price: Option<int>,
    category: Option<string>,
    description: Option<string>,
    image: Option<string>,
    isAvailable: Option<bool>)

  /** What the schema guarantees of every stored menu item. */
  predicate ValidMenuItem(m: MenuItem) {
    && m.name != []
    && IsTrimmed(m.name)
    && m.price >= 0
    && (m.description.Some? ==> IsTrimmed(m.description.value))
  }

  /** Schema validation of a create request: the required string check runs
      after trimming, so a name of only white space is rejected. */
  predicate AcceptsMenuInput(input: MenuInput) {
    && input.name.Some? && Trim(input.name.value) != []
    && input.price.Some? && input.price.value >= 0
    && input.category.Some? && ParseCategory(input.category.value).Some?
  }

  /** Casting, validating and defaulting a create request into a stored menu item. */
  function NewMenuItem(id: string, input: MenuInput): (r: Option<MenuItem>)
    ensures r.Some? <==> AcceptsMenuInput(input)
    ensures r.Some? ==> ValidMenuItem(r.value) && r.value.id == id
    ensures r.Some? ==>
      && r.value.name == Trim(input.name.value)
      && r.value.price == input.price.value
      && CategoryName(r.value.category) == input.category.value
    ensures r.Some? ==> r.value.description == if input.description.Some? then Some(Trim(input.description.value)) else None
    ensures r.Some? ==> r.value.image == if input.image.Some? then input.image.value else ""
    ensures r.Some? ==> r.value.isAvailable == if input.isAvailable.Some? then input.isAvailable.value else true
  {
    if !AcceptsMenuInput(input) then None
    else
      var description := if input.description.Some? then Some(Trim(input.description.value)) else None;
      TrimIsTrimmed(input.name.value);
      TrimIsTrimmed(if input.description.Some? then input.description.value else "");
      Some(MenuItem(
        id,
        Trim(input.name.value),
        input.price.value,
        ParseCategory(input.category.value).value,
        description,
        if input.image.Some? then input.image.value else "",
        if input.isAvailable.Some? then input.isAvailable.value else true))
  }
}
