/**
  The request-to-entity mapping of `DocumentService.createDocument`: the
  request DTOs received by the controller, the entities handed to the
  repository, and the field copies between them.

  Every Java reference may be null. A null `String` or `Long` field is just
  a value that is copied; a null description, a null products list or a
  null element of that list makes the mapping throw a NullPointerException,
  which is modelled as an error.
*/
module Mapping {
  import opened Nullable

  /** A Java `String` field: `None` is null. */
  type Text = Option<string>

  /** The `ProductDto` of a request. */
  datatype ProductDto = ProductDto(
    productId: Option<int>,
    certificateDocument: Text,
    certificateDocumentDate: Text,
    certificateDocumentNumber: Text,
    ownerInn: Text,
    producerInn: Text,
    productionDate: Text,
    tnvedCode: Text,
    uitCode: Text,
    uituCode: Text)

  /** The `DescriptionDto` of a request. */
  datatype DescriptionDto = DescriptionDto(descriptionId: Option<int>, participantInn: Text)

  /** The body of a create request. */
  datatype DocumentRequest = DocumentRequest(
    docId: Text,
    docStatus: Text,
    docType: Text,
    importRequest: bool,
    ownerInn: Text,
    participantInn: Text,
    producerInn: Text,
    productionDate: Text,
    productionType: Text,
    regDate: Text,
    regNumber: Text,
    description: Option<DescriptionDto>,
    products: Option<seq<Option<ProductDto>>>)

  /** The `Product` entity; `productId` is generated by the database on save. */
  datatype Product = Product(
    productId: Option<int>,
    certificateDocument: Text,
    certificateDocumentDate: Text,
    certificateDocumentNumber: Text,
    ownerInn: Text,
    producerInn: Text,
    productionDate: Text,
    tnvedCode: Text,
    uitCode: Text,
    uituCode: Text)

  /** The `Description` entity; `descriptionId` is generated by the database on save. */
  datatype Description = Description(descriptionId: Option<int>, participantInn: Text)

  /** The `Document` entity, keyed by `docId`. */
  datatype Document = Document(
    docId: Text,
    docStatus: Text,
    docType: Text,
    importRequest: bool,
    ownerInn: Text,
    participantInn: Text,
    producerInn: Text,
    productionDate: Text,
    productionType: Text,
    regDate: Text,
    regNumber: Text,
    description: Option<Description>,
    products: Option<seq<Product>>)

  /** Where the mapping dereferences null. */
  datatype NullSite = NullProducts | NullProduct(index: nat) | NullDescription

  /** The nine descriptive fields of a product agree between the DTO and the entity. */
  predicate SameProductFields(dto: ProductDto, p: Product)
  {
    p.certificateDocument == dto.certificateDocument
    && p.certificateDocumentDate == dto.certificateDocumentDate
    && p.certificateDocumentNumber == dto.certificateDocumentNumber
    && p.ownerInn == dto.ownerInn
    && p.producerInn == dto.producerInn
    && p.productionDate == dto.productionDate
    && p.tnvedCode == dto.tnvedCode
    && p.uitCode == dto.uitCode
    && p.uituCode == dto.uituCode
  }

  /** `mapToProductDto`: a fresh product with the nine fields copied and no id. */
  function MapProduct(dto: ProductDto): (p: Product)
    ensures SameProductFields(dto, p)
    ensures p.productId == None
  {
    Product(None, dto.certificateDocument, dto.certificateDocumentDate, dto.certificateDocumentNumber,
            dto.ownerInn, dto.producerInn, dto.productionDate, dto.tnvedCode, dto.uitCode, dto.uituCode)
  }

  /** `toDescriptionDto`: a fresh description with the participant INN copied and no id. */
  function ToDescription(dto: DescriptionDto): (d: Description)
    ensures d.participantInn == dto.participantInn
    ensures d.descriptionId == None
  {
    Description(None, dto.participantInn)
  }

  /** The DTO with its identifier cleared: all that the mapping looks at. */
  function ProductWithoutId(dto: ProductDto): ProductDto
  {
    dto.(productId := None)
  }

  /** Two DTOs map to the same product exactly when they differ at most in `productId`. */
  lemma MapProductForgetsOnlyTheId(a: ProductDto, b: ProductDto)
    ensures MapProduct(a) == MapProduct(b) <==> ProductWithoutId(a) == ProductWithoutId(b)
  {
  }

  /**
    `products.stream().map(this::mapToProductDto).toList()`: each element
    mapped in order; the first null element throws.
  */
  function MapProducts(dtos: seq<Option<ProductDto>>): (r: Result<seq<Product>, NullSite>)
    ensures r.Ok? <==> forall i :: 0 <= i < |dtos| ==> dtos[i].Some?
    ensures r.Ok? ==> |r.value| == |dtos|
    ensures r.Ok? ==> forall i :: 0 <= i < |dtos| ==> r.value[i] == MapProduct(dtos[i].value)
    ensures r.Err? ==> r.error.NullProduct? && r.error.index < |dtos| && dtos[r.error.index].None?
    ensures r.Err? ==> forall i :: 0 <= i < r.error.index ==> dtos[i].Some?
    decreases |dtos|
  {
    if dtos == [] then Ok([])
    else if dtos[0].None? then Err(NullProduct(0))
    else
      var rest := MapProducts(dtos[1..]);
      if rest.Err? then
        assert forall i :: 1 <= i < rest.error.index + 1 ==> dtos[i] == dtos[1..][i - 1];
        Err(NullProduct(rest.error.index + 1))
      else
        assert forall i :: 1 <= i < |dtos| ==> dtos[i] == dtos[1..][i - 1];
        Ok([MapProduct(dtos[0].value)] + rest.value)
  }

  /** The eleven header fields agree between the request and the document. */
  predicate SameHeader(req: DocumentRequest, doc: Document)
  {
    doc.docId == req.docId
    && doc.docStatus == req.docStatus
    && doc.docType == req.docType
    && doc.importRequest == req.importRequest
    && doc.ownerInn == req.ownerInn
    && doc.participantInn == req.participantInn
    && doc.producerInn == req.producerInn
    && doc.productionDate == req.productionDate
    && doc.productionType == req.productionType
    && doc.regDate == req.regDate
    && doc.regNumber == req.regNumber
  }

  /**
    The document built from a request: the builder copies the header, then
    the products are mapped, then the description. A null products list,
    a null product or a null description throws, in that order.
  */
  function BuildDocument(req: DocumentRequest): (r: Result<Document, NullSite>)
    ensures r.Ok? <==>
      req.products.Some? && (forall i :: 0 <= i < |req.products.value| ==> req.products.value[i].Some?)
      && req.description.Some?
    ensures req.products.None? ==> r == Err(NullProducts)
    ensures req.products.Some? && r.Err? && r.error.NullProduct? ==>
      r.error.index < |req.products.value| && req.products.value[r.error.index].None?
    ensures req.products.Some? && r.Err? && !r.error.NullProduct? ==> r.error == NullDescription
    // a null element is reported before a null description, and it is the first null element
    ensures req.products.Some? && MapProducts(req.products.value).Err? ==>
      r == Err(MapProducts(req.products.value).error)
    ensures r.Ok? ==> SameHeader(req, r.value)
    ensures r.Ok? ==> r.value.description == Some(ToDescription(req.description.value))
    ensures r.Ok? ==> r.value.products.Some? && |r.value.products.value| == |req.products.value|
    ensures r.Ok? ==> forall i :: 0 <= i < |req.products.value| ==>
      r.value.products.value[i] == MapProduct(req.products.value[i].value)
  {
    var header := Document(
      req.docId, req.docStatus, req.docType, req.importRequest, req.ownerInn, req.participantInn,
      req.producerInn, req.productionDate, req.productionType, req.regDate, req.regNumber, None, None);
    if req.products.None? then Err(NullProducts)
    else
      var products := MapProducts(req.products.value);
      if products.Err? then Err(products.error)
      else if req.description.None? then Err(NullDescription)
      else
        Ok(header.(products := Some(products.value), description := Some(ToDescription(req.description.value))))
  }

  /** The request with every DTO identifier cleared. */
  function RequestWithoutIds(req: DocumentRequest): DocumentRequest
  {
    req.(
      description := if req.description.Some? then Some(req.description.value.(descriptionId := None)) else None,
      products := if req.products.Some? then Some(ClearProductIds(req.products.value)) else None)
  }

  function ClearProductIds(dtos: seq<Option<ProductDto>>): seq<Option<ProductDto>>
  {
    seq(|dtos|, i requires 0 <= i < |dtos| =>
      if dtos[i].Some? then Some(ProductWithoutId(dtos[i].value)) else None)
  }

  /**
    The identifiers a client sends are never copied: two requests that
    differ only in their product and description ids build the same
    document, or fail at the same place.
  */
  lemma BuildDocumentIgnoresDtoIds(a: DocumentRequest, b: DocumentRequest)
    requires RequestWithoutIds(a) == RequestWithoutIds(b)
    ensures BuildDocument(a) == BuildDocument(b)
  {
    var ra, rb := BuildDocument(a), BuildDocument(b);
    if a.products.Some? {
      var pa, pb := a.products.value, b.products.value;
      assert |pa| == |pb| by {
        assert |ClearProductIds(pa)| == |ClearProductIds(pb)|;
      }
      forall i | 0 <= i < |pa|
        ensures pa[i].Some? == pb[i].Some?
        ensures pa[i].Some? ==> MapProduct(pa[i].value) == MapProduct(pb[i].value)
      {
        assert ClearProductIds(pa)[i] == ClearProductIds(pb)[i];
        if pa[i].Some? {
          MapProductForgetsOnlyTheId(pa[i].value, pb[i].value);
        }
      }
      if ra.Ok? {
        assert ra.value.products.value == rb.value.products.value;
      }
    }
  }
}
