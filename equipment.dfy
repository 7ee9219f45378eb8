/** The catalog records of types/equipment.ts. An optional field is an
    `Option`; a product's `url` and `image` are optional too, because every
    script tests them for absence before use. */
module Equipment {
  import opened Wrappers

  /** A specification value: a string or a list of strings. */
  datatype SpecValue = Text(text: string) | List(items: seq<string>)

  datatype Dimensions = Dimensions(
    width: Option<string>,
    height: Option<string>,
    depth: Option<string>,
    weight: Option<string>)

  const NoDimensions := Dimensions(None, None, None, None)

  datatype Pricing = Pricing(msrp: Option<string>, note: Option<string>)

  datatype DocType = Pdf | Doc | Manual | Brochure

  datatype Document = Document(name: string, url: string, docType: DocType)

  /** A product, called a subcategory in the catalog files. */
  datatype Product = Product(
    id: string,
    name: string,
    description: string,
    url: Option<string>,
    image: Option<string>,
    manufacturer: Option<string>,
    specifications: Option<map<string, SpecValue>>,
    features: Option<seq<string>>,
    technicalDetails: Option<seq<string>>,
    dimensions: Option<Dimensions>,
    pricing: Option<Pricing>,
    compatibility: Option<seq<string>>,
    partNumbers: Option<seq<string>>,
    documents: Option<seq<Document>>,
    images: Option<seq<string>>,
    additionalInfo: Option<string>)

  datatype Category = Category(
    id: string,
    name: string,
    description: string,
    icon: string,
    itemCount: int,
    featured: bool,
    externalUrl: Option<string>,
    badge: Option<string>,
    subcategories: seq<Product>)

  datatype Address = Address(street: string, city: string, state: string, zip: string, country: string)

  datatype ContactInfo = ContactInfo(
    phone: string,
    tollFree: string,
    fax: string,
    email: string,
    hours: string,
    address: Address)

  datatype OrderingInfo = OrderingInfo(
    minimumOrder: int,
    poMinimumOrder: int,
    orderFormUrl: string,
    acceptedPayments: seq<string>,
    creditApprovalRequired: bool)

  datatype Metadata = Metadata(lastUpdated: string, source: string, version: string)

  /** One catalog file. */
  datatype EquipmentData = EquipmentData(
    metadata: Metadata,
    categories: seq<Category>,
    contactInfo: ContactInfo,
    orderingInfo: OrderingInfo)

  /** The `Partial<Product>` records of the specification tables: the
      fields a table entry may supply. */
  datatype Bundle = Bundle(
    specifications: Option<map<string, SpecValue>>,
    features: Option<seq<string>>,
    dimensions: Option<Dimensions>,
    compatibility: Option<seq<string>>,
    partNumbers: Option<seq<string>>)

  /** JavaScript truthiness of an optional string: present and non-empty. */
  predicate Truthy(s: Option<string>) {
    s.Some? && s.value != ""
  }

  /** `Object.keys(p.specifications).length`, or 0 when absent. */
  function SpecKeyCount(p: Product): nat {
    if p.specifications.Some? then |p.specifications.value| else 0
  }

  /** `images || (image ? [image] : [])`, the image gallery both
      specification scripts fall back to. */
  function GalleryOrImage(p: Product): seq<string> {
    if p.images.Some? then p.images.value
    else if Truthy(p.image) then [p.image.value]
    else []
  }

  /** The product with its main image and gallery replaced. */
  function WithImages(p: Product, image: Option<string>, images: seq<string>): Product {
    p.(image := image, images := Some(images))
  }

  /** The two products agree on every field except `image` and `images`. */
  predicate SameExceptImages(p: Product, q: Product) {
    p.(image := None, images := None) == q.(image := None, images := None)
  }

  /** An object literal of specifications, written entry by entry; a later
      entry with the same key wins, as in a JavaScript object literal. */
  function SpecsOf(entries: seq<(string, SpecValue)>): map<string, SpecValue> {
    if entries == [] then map[]
    else SpecsOf(entries[..|entries| - 1])[entries[|entries| - 1].0 := entries[|entries| - 1].1]
  }

  /** Every entry's key is a key of the object. */
  lemma {:induction false} SpecsOfKeys(entries: seq<(string, SpecValue)>)
    ensures forall i :: 0 <= i < |entries| ==> entries[i].0 in SpecsOf(entries)
  {
    if entries != [] {
      var n := |entries| - 1;
      SpecsOfKeys(entries[..n]);
      assert forall i :: 0 <= i < n ==> entries[..n][i] == entries[i];
    }
  }

  /** A map that holds n distinct keys has at least n entries. */
  lemma {:induction false} KeysAtLeast(m: map<string, SpecValue>, ks: seq<string>)
    requires forall i, j :: 0 <= i < j < |ks| ==> ks[i] != ks[j]
    requires forall i :: 0 <= i < |ks| ==> ks[i] in m
    ensures |m| >= |ks|
  {
    if ks != [] {
      var k := ks[|ks| - 1];
      var m' := m - {k};
      assert forall i :: 0 <= i < |ks| - 1 ==> ks[i] != k && ks[..|ks| - 1][i] == ks[i];
      KeysAtLeast(m', ks[..|ks| - 1]);
      assert m'.Keys + {k} == m.Keys;
    }
  }
}
