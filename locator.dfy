/**
 * The content locator: `document.querySelector` over the abstract document,
 * and the priority chain main → article → #content → .content → body whose
 * innerHTML becomes the page's main content.
 */
module Locator {
  import opened Common
  import opened Dom

  /** The four selectors the locator tries, as `querySelector` arguments. */
  datatype Selector = Tag(name: string) | Id(name: string) | Class(name: string)

  predicate Matches(e: Element, s: Selector) {
    match s
    case Tag(n) => e.tag == n
    case Id(n) => e.id == n
    case Class(n) => n in e.classes
  }

  /** Some element of the document matches `s`. */
  predicate Present(elements: seq<Element>, s: Selector) {
    exists i :: 0 <= i < |elements| && Matches(elements[i], s)
  }

  /** The position of the first element in document order that matches `s`. */
  function FirstMatch(elements: seq<Element>, s: Selector): (r: Option<nat>)
    ensures r.None? <==> !Present(elements, s)
    ensures r.Some? ==> r.value < |elements| && Matches(elements[r.value], s) &&
                        forall j :: 0 <= j < r.value ==> !Matches(elements[j], s)
  {
    if elements == [] then None
    else if Matches(elements[0], s) then Some(0)
    else
      var r := FirstMatch(elements[1..], s);
      assert forall j :: 1 <= j < |elements| ==> elements[j] == elements[1..][j - 1];
      if r.None? then None else Some(r.value + 1)
  }

  /** The first match is determined by any matching position preceded by none. */
  lemma FirstMatchAt(elements: seq<Element>, s: Selector, i: nat)
    requires i < |elements| && Matches(elements[i], s)
    requires forall j :: 0 <= j < i ==> !Matches(elements[j], s)
    ensures FirstMatch(elements, s) == Some(i)
  {
  }

  /** `document.querySelector(s)`: the first matching element, or null. */
  function QuerySelector(doc: Document, s: Selector): (r: Option<Element>)
    ensures r.None? <==> !Present(doc.elements, s)
    ensures r.Some? ==> r.value == doc.elements[FirstMatch(doc.elements, s).value]
  {
    var i := FirstMatch(doc.elements, s);
    if i.None? then None else Some(doc.elements[i.value])
  }

  /** `a || b` on element references. */
  function OrElse(a: Option<Element>, b: Option<Element>): (r: Option<Element>)
    ensures r.Some? <==> a.Some? || b.Some?
    ensures a.Some? ==> r == a
    ensures a.None? ==> r == b
  {
    if a.Some? then a else b
  }

  const Main := Tag("main")
  const Article := Tag("article")
  const ContentId := Id("content")
  const ContentClass := Class("content")

  /** The TypeError thrown by `mainContent.innerHTML` when every operand of the chain is null. */
  const NullBodyError := "Cannot read properties of null (reading 'innerHTML')"

  /** The innerHTML of the first element in document order that matches `s`. */
  function FirstHtml(doc: Document, s: Selector): string
    requires Present(doc.elements, s)
  {
    doc.elements[FirstMatch(doc.elements, s).value].innerHTML
  }

  /** The in-page evaluation of `fetchUrl` that picks the main content. */
  function LocateMainContent(doc: Document): (r: Result<string>)
    ensures Present(doc.elements, Main) ==> r == Ok(FirstHtml(doc, Main))
    ensures (!Present(doc.elements, Main) && Present(doc.elements, Article)) ==> r == Ok(FirstHtml(doc, Article))
    ensures (!Present(doc.elements, Main) && !Present(doc.elements, Article) &&
             Present(doc.elements, ContentId)) ==> r == Ok(FirstHtml(doc, ContentId))
    ensures (!Present(doc.elements, Main) && !Present(doc.elements, Article) &&
             !Present(doc.elements, ContentId) && Present(doc.elements, ContentClass)) ==>
            r == Ok(FirstHtml(doc, ContentClass))
    ensures (!Present(doc.elements, Main) && !Present(doc.elements, Article) &&
             !Present(doc.elements, ContentId) && !Present(doc.elements, ContentClass)) ==>
            r == if doc.body.Some? then Ok(doc.body.value.innerHTML) else Err(NullBodyError)
  {
    var mainContent := OrElse(QuerySelector(doc, Main),
                       OrElse(QuerySelector(doc, Article),
                       OrElse(QuerySelector(doc, ContentId),
                       OrElse(QuerySelector(doc, ContentClass), doc.body))));
    if mainContent.Some? then Ok(mainContent.value.innerHTML) else Err(NullBodyError)
  }

  /** The selectors in the order the locator tries them. */
  const Priority: seq<Selector> := [Main, Article, ContentId, ContentClass]

  /** Reference definition of the heuristic as a general first-match rule: the first
      selector of `selectors` that matches anything decides, else the body. */
  function LocateBy(doc: Document, selectors: seq<Selector>): Result<string> {
    if selectors == [] then
      if doc.body.Some? then Ok(doc.body.value.innerHTML) else Err(NullBodyError)
    else if Present(doc.elements, selectors[0]) then Ok(FirstHtml(doc, selectors[0]))
    else LocateBy(doc, selectors[1..])
  }

  /** The `||` chain is the first-match rule over the priority list. */
  lemma LocateIsPriorityRule(doc: Document)
    ensures LocateMainContent(doc) == LocateBy(doc, Priority)
  {
    var body := LocateBy(doc, []);
    assert [ContentClass][1..] == [];
    assert LocateBy(doc, [ContentClass]) ==
      if Present(doc.elements, ContentClass) then Ok(FirstHtml(doc, ContentClass)) else body;
    assert [ContentId, ContentClass][1..] == [ContentClass];
    assert LocateBy(doc, [ContentId, ContentClass]) ==
      if Present(doc.elements, ContentId) then Ok(FirstHtml(doc, ContentId)) else LocateBy(doc, [ContentClass]);
    assert [Article, ContentId, ContentClass][1..] == [ContentId, ContentClass];
    assert LocateBy(doc, [Article, ContentId, ContentClass]) ==
      if Present(doc.elements, Article) then Ok(FirstHtml(doc, Article)) else LocateBy(doc, [ContentId, ContentClass]);
    assert Priority[1..] == [Article, ContentId, ContentClass];
  }

  /** A `<main>` anywhere in the document makes every `<article>`, `#content`
      and `.content` element irrelevant: two documents with the same `<main>`
      elements at the same positions give the same content. */
  lemma {:induction false} MainDecides(d1: Document, d2: Document)
    requires |d1.elements| == |d2.elements|
    requires forall i :: 0 <= i < |d1.elements| ==>
      (Matches(d1.elements[i], Main) <==> Matches(d2.elements[i], Main))
    requires forall i :: 0 <= i < |d1.elements| && Matches(d1.elements[i], Main) ==>
      d1.elements[i].innerHTML == d2.elements[i].innerHTML
    requires Present(d1.elements, Main)
    ensures LocateMainContent(d1) == LocateMainContent(d2)
  {
    var k := FirstMatch(d1.elements, Main).value;
    FirstMatchAt(d2.elements, Main, k);
  }
}
