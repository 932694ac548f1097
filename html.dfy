/**
 * The document as the components see it. DOM traversal is not modelled:
 * `Node.contains` is a relation given with the document, `getElementById`
 * is a finite index, and `document.activeElement` is a field.
 */
module Html {
  import opened Base

  /** A DOM element, known only by its identity. */
  datatype Element = Element(handle: nat)

  datatype Document = Document(
    contains: (Element, Element) -> bool,  // `a.contains(b)`
    byId: map<string, Element>,            // the elements that carry an `id`
    active: Option<Element>,               // `document.activeElement`
    body: Element)                         // `document.body`

  /**
   * `container?.contains(document.activeElement)`: false when the container
   * is not mounted, and `contains(null)` is false.
   */
  predicate HoldsFocus(doc: Document, container: Option<Element>) {
    container.Some? && doc.active.Some? && doc.contains(container.value, doc.active.value)
  }

  /** `document.getElementById(id)`. */
  function GetElementById(doc: Document, id: string): (r: Option<Element>)
    ensures r.Some? <==> id in doc.byId
    ensures r.Some? ==> r.value == doc.byId[id]
  {
    if id in doc.byId then Some(doc.byId[id]) else None
  }
}
