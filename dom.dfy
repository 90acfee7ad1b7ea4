/**
 * The abstract rendered document that the in-page evaluations query: the
 * elements in document order, the `<body>` element, and the `<meta>`
 * elements with the attributes the metadata scan reads.
 */
module Dom {
  import opened Common

  /** An element as the content locator sees it: its lower-case tag name, its
      `id` attribute (empty when absent), its class list and its innerHTML. */
  datatype Element = Element(tag: string, id: string, classes: seq<string>, innerHTML: string)

  /** A `<meta>` element; an attribute is None when `getAttribute` returns null. */
  datatype MetaTag = MetaTag(name: Option<string>, property: Option<string>, content: Option<string>)

  /** `elements` lists every element in document order; `body` is `document.body`,
      which is null when the page's scripts removed it. */
  datatype Document = Document(elements: seq<Element>, body: Option<Element>, metaTags: seq<MetaTag>)
}
