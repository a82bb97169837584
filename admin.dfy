/** The admin dashboard: customer messages and products, each with a
    status the admin can change, and the form that adds a product. */
module Admin {
  import opened Query
  import opened Ui
  import Text

  datatype Message = Message(id: string, senderName: string, senderEmail: string, messageText: string,
                             status: string, receivedAt: string)

  datatype ProductRow = ProductRow(id: string, name: string, description: string, price: real,
                                   sectionId: string, tags: seq<string>, stockQuantity: int,
                                   status: string, isFeatured: bool)

  /** The add-product form; price and stock are still text. */
  datatype NewProduct = NewProduct(name: string, description: string, price: string, sectionId: string,
                                   tags: string, stockQuantity: string, status: string, isFeatured: bool)

  /** The form's initial and reset value. */
  const EmptyForm: NewProduct := NewProduct("", "", "", "", "", "", "In Stock", false)

  /** How an awaited store call ends: it resolves without an error, it
      resolves with an error object, or it rejects. */
  datatype Outcome = Succeeded | ErrorReturned | Threw

  // ---------------------------------------------------------------------
  // Tags

  /** `tags ? tags.split(',').map(tag => tag.trim()) : []`. */
  function ParseTags(tags: string): seq<string> {
    if tags == "" then [] else TrimAll(Text.Split(tags, ','))
  }

  /** `.map(tag => tag.trim())`. */
  function TrimAll(parts: seq<string>): (r: seq<string>)
    ensures |r| == |parts|
    ensures forall i :: 0 <= i < |r| ==> r[i] == Text.Trim(parts[i])
  {
    seq(|parts|, i requires 0 <= i < |parts| => Text.Trim(parts[i]))
  }

  /** An empty field gives no tags. Otherwise there is one tag per comma
      plus one, empty pieces included; each is the trimmed piece between
      commas, holds no comma and neither starts nor ends with white space. */
  lemma ParseTagsSpec(tags: string)
    ensures tags == "" ==> ParseTags(tags) == []
    ensures tags != "" ==> |ParseTags(tags)| == Text.Count(tags, ',') + 1
    ensures tags != "" ==> forall i :: 0 <= i < |ParseTags(tags)| ==>
              ParseTags(tags)[i] == Text.Trim(Text.Split(tags, ',')[i])
    ensures forall i :: 0 <= i < |ParseTags(tags)| ==>
              ',' !in ParseTags(tags)[i] && Text.Trim(ParseTags(tags)[i]) == ParseTags(tags)[i]
  {
    if tags != "" {
      Text.SplitLength(tags, ',');
      Text.SplitPiecesFree(tags, ',');
      var parts := Text.Split(tags, ',');
      forall i | 0 <= i < |parts|
        ensures ',' !in Text.Trim(parts[i]) && Text.Trim(Text.Trim(parts[i])) == Text.Trim(parts[i])
      {
        TrimmedPiece(parts[i]);
      }
    }
  }

  lemma TrimmedPiece(piece: string)
    requires ',' !in piece
    ensures ',' !in Text.Trim(piece) && Text.Trim(Text.Trim(piece)) == Text.Trim(piece)
  {
    Text.TrimSpec(piece);
    Text.TrimIdempotent(piece);
    var k := Text.LeadingSpaces(piece);
    var t := Text.Trim(piece);
    forall j | 0 <= j < |t| ensures t[j] != ',' {
      assert t[j] == piece[k + j];
    }
  }

  /** The insert payload; `parseFloat` and `parseInt` of the text fields
      are the parameters `price` and `stock`. */
  function ProductData(f: NewProduct, newId: string, price: real, stock: int): (r: ProductRow)
    ensures r.tags == ParseTags(f.tags) && r.price == price && r.stockQuantity == stock
    ensures r.name == f.name && r.description == f.description && r.sectionId == f.sectionId
    ensures r.status == f.status && r.isFeatured == f.isFeatured
  {
    ProductRow(newId, f.name, f.description, price, f.sectionId, ParseTags(f.tags), stock, f.status, f.isFeatured)
  }

  // ---------------------------------------------------------------------
  // Status patches

  /** `prev.map(x => x.id === id ? { ...x, status } : x)`, once for both
      lists: `matches` is the id test and `patch` the status update. */
  function Patch<T>(xs: seq<T>, matches: T -> bool, patch: T -> T): (r: seq<T>)
    ensures |r| == |xs|
    ensures forall i :: 0 <= i < |r| ==> r[i] == if matches(xs[i]) then patch(xs[i]) else xs[i]
  {
    if xs == [] then [] else [if matches(xs[0]) then patch(xs[0]) else xs[0]] + Patch(xs[1..], matches, patch)
  }

  /** The patch of the messages list. */
  function PatchMessages(ms: seq<Message>, id: string, status: string): seq<Message> {
    Patch(ms, (m: Message) => m.id == id, (m: Message) => m.(status := status))
  }

  /** The patch of the products list. */
  function PatchProducts(ps: seq<ProductRow>, id: string, status: string): seq<ProductRow> {
    Patch(ps, (p: ProductRow) => p.id == id, (p: ProductRow) => p.(status := status))
  }

  /** A patch keeps the messages, their ids and their order; the patched
      ones carry the new status; a second patch of the same message
      overrides the first, and patching to the same status twice changes
      nothing more. */
  lemma PatchMessagesSpec(ms: seq<Message>, id: string, s1: string, s2: string)
    ensures forall i :: 0 <= i < |ms| ==> PatchMessages(ms, id, s1)[i].id == ms[i].id
    ensures forall i :: 0 <= i < |ms| && ms[i].id == id ==> PatchMessages(ms, id, s1)[i].status == s1
    ensures PatchMessages(PatchMessages(ms, id, s1), id, s2) == PatchMessages(ms, id, s2)
    ensures PatchMessages(PatchMessages(ms, id, s1), id, s1) == PatchMessages(ms, id, s1)
  {
  }

  lemma PatchProductsSpec(ps: seq<ProductRow>, id: string, s1: string, s2: string)
    ensures forall i :: 0 <= i < |ps| ==> PatchProducts(ps, id, s1)[i].id == ps[i].id
    ensures forall i :: 0 <= i < |ps| && ps[i].id == id ==> PatchProducts(ps, id, s1)[i].status == s1
    ensures PatchProducts(PatchProducts(ps, id, s1), id, s2) == PatchProducts(ps, id, s2)
  {
  }

  /** A message whose id is absent leaves the list alone. */
  lemma PatchAbsentId(ms: seq<Message>, id: string, status: string)
    requires forall m :: m in ms ==> m.id != id
    ensures PatchMessages(ms, id, status) == ms
  {
  }

  // ---------------------------------------------------------------------
  // Badges

  /** The message badge. */
  function MessageBadge(status: string): (b: Badge)
    ensures b == Destructive <==> status == "New"
    ensures b == Default <==> status == "In Progress"
    ensures b == Secondary <==> status != "New" && status != "In Progress"
    ensures b != Outline
  {
    if status == "New" then Destructive else if status == "In Progress" then Default else Secondary
  }

  /** The product badge. */
  function ProductBadge(status: string): (b: Badge)
    ensures b == Default <==> status == "In Stock"
    ensures b == Destructive <==> status != "In Stock"
  {
    if status == "In Stock" then Default else Destructive
  }

  // ---------------------------------------------------------------------
  // The dashboard

  /** The `contact_messages` and `products` tables. */
  class Tables {
    var messages: seq<Message>
    var products: seq<ProductRow>

    constructor (messages: seq<Message>, products: seq<ProductRow>)
      ensures this.messages == messages && this.products == products
    {
      this.messages := messages;
      this.products := products;
    }
  }

  datatype Toast = Success | Error

  class Dashboard {
    var messages: seq<Message>
    var products: seq<ProductRow>
    var newProduct: NewProduct
    var loading: bool

    constructor ()
      ensures messages == [] && products == [] && newProduct == EmptyForm && loading
    {
      messages := [];
      products := [];
      newProduct := EmptyForm;
      loading := true;
    }

    /** `fetchData`: each list is replaced only when its query returned
        data. */
    method Load(messagesData: Option<seq<Message>>, productsData: Option<seq<ProductRow>>)
      modifies this
      ensures messagesData.Some? ==> messages == messagesData.value
      ensures messagesData.None? ==> messages == old(messages)
      ensures productsData.Some? ==> products == productsData.value
      ensures productsData.None? ==> products == old(products)
      ensures newProduct == old(newProduct) && !loading
    {
      if messagesData.Some? {
        messages := messagesData.value;
      }
      if productsData.Some? {
        products := productsData.value;
      }
      loading := false;
    }

    /** `updateMessageStatus`. The returned error is not checked, so the
        local patch and the success toast follow any call that does not
        reject; only a successful update reaches the table. */
    method UpdateMessageStatus(tables: Tables, messageId: string, status: string, outcome: Outcome)
      returns (t: Toast)
      modifies this, tables
      ensures outcome == Succeeded ==> tables.messages == PatchMessages(old(tables.messages), messageId, status)
      ensures outcome != Succeeded ==> tables.messages == old(tables.messages)
      ensures outcome != Threw ==> messages == PatchMessages(old(messages), messageId, status) && t == Success
      ensures outcome == Threw ==> messages == old(messages) && t == Error
      ensures tables.products == old(tables.products)
      ensures products == old(products) && newProduct == old(newProduct) && loading == old(loading)
    {
      if outcome == Threw {
        return Error;
      }
      if outcome == Succeeded {
        tables.messages := PatchMessages(tables.messages, messageId, status);
      }
      messages := PatchMessages(messages, messageId, status);
      t := Success;
    }

    /** `updateProductStatus`, with the same unchecked error. */
    method UpdateProductStatus(tables: Tables, productId: string, status: string, outcome: Outcome)
      returns (t: Toast)
      modifies this, tables
      ensures outcome == Succeeded ==> tables.products == PatchProducts(old(tables.products), productId, status)
      ensures outcome != Succeeded ==> tables.products == old(tables.products)
      ensures outcome != Threw ==> products == PatchProducts(old(products), productId, status) && t == Success
      ensures outcome == Threw ==> products == old(products) && t == Error
      ensures tables.messages == old(tables.messages)
      ensures messages == old(messages) && newProduct == old(newProduct) && loading == old(loading)
    {
      if outcome == Threw {
        return Error;
      }
      if outcome == Succeeded {
        tables.products := PatchProducts(tables.products, productId, status);
      }
      products := PatchProducts(products, productId, status);
      t := Success;
    }

    /** `addProduct` up to the reload: the insert's error is checked, and
        only a successful insert resets the form. */
    method AddProduct(tables: Tables, newId: string, price: real, stock: int, outcome: Outcome)
      returns (t: Toast)
      modifies this, tables
      ensures outcome == Succeeded ==>
                tables.products == old(tables.products) + [ProductData(old(newProduct), newId, price, stock)]
                && newProduct == EmptyForm && t == Success
      ensures outcome != Succeeded ==>
                tables.products == old(tables.products) && newProduct == old(newProduct) && t == Error
      ensures tables.messages == old(tables.messages)
      ensures messages == old(messages) && products == old(products) && loading == old(loading)
    {
      var data := ProductData(newProduct, newId, price, stock);
      if outcome != Succeeded {
        return Error;
      }
      tables.products := tables.products + [data];
      newProduct := EmptyForm;
      t := Success;
    }
  }
}
