/**
 * The observable contract of the HTML queries the login flow makes
 * (`doc.Find(selector).Attr(name)` and `doc.Find(selector).Each(...)`).
 * A parsed document is the sequence of its elements in document order;
 * the parser itself is not modelled.
 */
module Html {
  import opened Wrappers

  /** One element: its tag name and its attributes. */
  datatype Element = Element(tag: string, attrs: map<string, string>)

  type Document = seq<Element>

  /** The two selector forms the flow uses: `meta`, `form`, and `input[type='...']`. */
  datatype Selector =
    | Tag(name: string)
    | InputOfType(inputType: string)

  predicate Matches(e: Element, sel: Selector)
  {
    match sel
    case Tag(name) => e.tag == name
    case InputOfType(t) => e.tag == "input" && "type" in e.attrs && e.attrs["type"] == t
  }

  /** `doc.Find(sel)`: every matching element, in document order. */
  function Find(doc: Document, sel: Selector): (found: seq<Element>)
    ensures |found| <= |doc|
    ensures forall e :: e in found ==> e in doc && Matches(e, sel)
    ensures forall e :: e in doc && Matches(e, sel) ==> e in found
  {
    if doc == [] then []
    else if Matches(doc[0], sel) then [doc[0]] + Find(doc[1..], sel)
    else Find(doc[1..], sel)
  }

  /** `Find` keeps the document's order: the matches of a prefix come before those of the rest. */
  lemma {:induction false} FindAppend(a: Document, b: Document, sel: Selector)
    ensures Find(a + b, sel) == Find(a, sel) + Find(b, sel)
  {
    if a == [] {
      assert a + b == b;
    } else {
      assert (a + b)[1..] == a[1..] + b;
      FindAppend(a[1..], b, sel);
    }
  }

  /** A single element is found once when it matches and not at all otherwise. */
  lemma FindOne(e: Element, sel: Selector)
    ensures Find([e], sel) == if Matches(e, sel) then [e] else []
  {
    assert [e][1..] == [];
  }

  /** `e.Attr(name)`: the attribute's value, or None when the element does not carry it. */
  function Attr(e: Element, name: string): (r: Option<string>)
    ensures r.Some? <==> name in e.attrs
    ensures r.Some? ==> r.value == e.attrs[name]
  {
    if name in e.attrs then Some(e.attrs[name]) else None
  }

  /**
   * `value, _ := item.Attr(name)`: the attribute's value, with the Go zero
   * value `""` when the attribute is absent.
   */
  function AttrOrEmpty(e: Element, name: string): (r: string)
    ensures name in e.attrs ==> r == e.attrs[name]
    ensures name !in e.attrs ==> r == ""
  {
    Attr(e, name).GetOr("")
  }

  /**
   * `value, _ := doc.Find(sel).Attr(name)`: goquery reads the attribute of the
   * FIRST matching element only; with no matching element, or when that first
   * element lacks the attribute, the result is `""`.
   */
  function FirstAttr(doc: Document, sel: Selector, name: string): (r: string)
  {
    var found := Find(doc, sel);
    if found == [] then "" else AttrOrEmpty(found[0], name)
  }

  /** The first matching element decides the attribute; nothing else in the document does. */
  lemma {:induction false} FirstAttrIsFirstMatch(doc: Document, sel: Selector, name: string, i: nat)
    requires i < |doc| && Matches(doc[i], sel)
    requires forall j :: 0 <= j < i ==> !Matches(doc[j], sel)
    ensures FirstAttr(doc, sel, name) == AttrOrEmpty(doc[i], name)
  {
    if i > 0 {
      FirstAttrIsFirstMatch(doc[1..], sel, name, i - 1);
    }
  }

  /** A document with no matching element yields the empty string. */
  lemma {:induction false} FirstAttrOfNoMatch(doc: Document, sel: Selector, name: string)
    requires forall j :: 0 <= j < |doc| ==> !Matches(doc[j], sel)
    ensures FirstAttr(doc, sel, name) == ""
  {
    if doc != [] {
      FirstAttrOfNoMatch(doc[1..], sel, name);
    }
  }
}
